# RelayDock: a verified model of its delivery protocol

RelayDock is an in-memory webhook relay. An event is admitted under an idempotency key, journaled and queued;
workers pop due deliveries, lease them, ask a circuit breaker, send, and settle the lease as delivered, retried or
dead. Five lock-protected components (store, scheduler, journal, replay cursor, breaker) must agree without a common
lock. This project models them in Dafny and proves what holds of every call, every run and every interleaving.

Each component appears three times, tied together:

- as a *specification function* on values (`Store`, `Journal`, `Schedule`, `Breaker`, `Transactions`, ...);
- as a *class* with the source's fields and methods, each method proved to compute exactly that function
  (`Store.Memory`, `Queue.Scheduler`, `RelayObjects.Worker`, `DeadLetters.Ledger`, ...);
- in *runs*: lists of arbitrary actions folded over a state, for which the main theorems hold without bound.

Two granularities of runs are used for the relay. In `AtomicRuns` a whole `Submit`, `Step`, `StepFor` or
`RetryOverdue` is one transition, and a restart may replace the scheduler; journal and store agree there, and the
queue covers what is pending. In `Interleaving` every worker or submitter is a program counter between two
lock-protected calls; fencing, lease exclusion, the send budget, finality of completion and backoff spacing hold
there. The two are tied: an interleaved run whose operations do not overlap has the relay of the atomic run.

| file | subject |
|---|---|
| `Core.dfy`, `Lists.dfy` | values, errors, instants; filtering and sorting sequences |
| `Store.dfy`, `Journal.dfy`, `Breaker.dfy` | reservations and leases; the journal; the circuit breaker and its runs |
| `Queue.dfy` | the indexed binary heap, refined to a map from id to ready time; draining |
| `Transactions.dfy`, `Relay.dfy`, `Batching.dfy` | admission and worker steps; the objects; batches of steps |
| `Replay.dfy`, `AtomicRuns.dfy` | resumable replay; runs of whole operations |
| `Recovery.dfy`, `RestartRuns.dfy` | what a replay recovers; what the queue covers in the runs after it |
| `Answers.dfy`, `AnswerRuns.dfy` | what each operation answers and leaves behind; what the answers of a run add up to |
| `Overdue.dfy`, `Dock.dfy` | the overdue sweep; the orchestration service's own admission, batch window included |
| `DockRuns.dfy` | runs that mix that admission with the relay's workers |
| `Interleaving.dfy`, `Lease*.dfy`, `Targets.dfy` | every interleaving of any number of workers |
| `Uninterrupted.dfy`, `SerialRuns.dfy` | operations that nobody interrupts are the whole operations of `AtomicRuns` |
| `JournalOrder.dfy`, `StaleWorkers.dfy` | when the journal agrees under interleaving; what overtaken workers can still do |
| `Retention.dfy`, `Ledger.dfy` | the dead-letter ledger and its reaper |
| `Health.dfy` | the pruned health window |
| `Batch.dfy`, `Window.dfy` | the batch window and its flusher |

Conventions and hypotheses:

- An instant is a whole number of nanoseconds. `Option<Time>` stands for an instant that may be Go's zero
  `time.Time`, and `Option<Delivery>` for a result that may be the zero `Delivery`.
- The sender is an arbitrary outcome: `send: Option<string>` is its error, if any. `reject` says that the journal
  rejects the append (its one-shot `failNext` flag); the run theorems allow any pattern of rejections.
- The relay's delivery ids are a hash of the key. Theorems that need it say `Injective(idOf)`: two keys do not collide.
  The orchestration service makes its ids from endpoint and key; `DockRuns` says `NamesKey`: no id serves two keys.
- The interleaved theorems assume `Sane`: workers have distinct names and none has a larger MaxAttempts than the
  common bound. Lease properties are stated per incarnation of an id, from its Reserve to its rollback, because a
  rollback followed by a new reservation starts the epochs at 0 again.
- Go's `container/heap` and `sort` are not part of the repository. The heap's sift-up, sift-down, Fix, Push and Pop
  are written over the repository's own Less, Swap, Push and Pop. Where a sorted order is not unique
  (`sort.Slice` by time is unstable), only sortedness and permutation are promised.

Properties the code does not have, each with an input on which it fails and the condition under which it holds:

- At most one probe per circuit: fails in `BreakerRuns.TwoProbes`; kept by a step exactly as
  `BreakerRuns.ProbeExactKept` says.
- All-or-nothing admission through the orchestration service, expected by `internal/relaydock/target_test.go:35-44`
  and by the comment on `KeepReservation`: fails in `Dock.RejectionSpendsKey` and in
  `Dock.SecondSubmitFailsAndIsAdmitted`; a failed Submit restores store and queue exactly as `Dock.RestoredExactly`
  says, and costs the queue a delivery exactly as `Dock.QueueLosesExactly` says.
- A recovered delivery staying queued: fails in `Recovery.EarlyStepHappens`; lost exactly as
  `Recovery.EarlyStepForgets` says.
- Backoff spacing across incarnations of an id, because `ReviveDead` is not fenced: fails in
  `StaleWorkers.StaleRevivalBreaksSpacing`; holds along a run exactly as `LeaseSpacing.SpacingExactly` says, and
  one revival keeps it exactly as `LeaseSpacing.RevivalSpacing` says.
- Journal and store agreeing under every interleaving, because the journal is written after the store's lock is
  released: fails in `StaleWorkers.StaleEntryFollowsDelivery`; one entry leaves them in agreement exactly as
  `JournalOrder.AppendAgreesExactly` says. A run in which no call spoils the agreement has it, rejected entries or not
  (`JournalOrder.UnspoiltRunsAgree`), and each spoiling call breaks it there and then
  (`JournalOrder.SpoilingDisagrees`). Runs without overlap agree by `SerialRuns.SerialRunsAgree`.
- NextAttempt never going back: fails in `StaleWorkers.StaleRevivalBreaksSpacing`; a revival moves it forward exactly
  as `LeaseSpacing.RevivalAdvancesExactly` says.
- Delivery ids of the orchestration service being unique: fails in `Dock.IdsCollide`, and `Dock.CollisionReplaces`
  says what a collision does.
- A backoff that is monotone and capped at an hour: fails in `Transactions.BackoffDropsAtThirty`; the cap holds
  exactly as `Transactions.BackoffCappedExactly` says, monotonicity exactly as `Transactions.BackoffMonotoneExactly`.
- A health rate over the full window when the clock goes back: fails in `Health.LookingBackMisses`; over a
  run it holds exactly as `Health.SeenWholeExactly` says, for one pruning as `Health.PruningHidesBetween` says.

## Model

| member | source | states |
|---|---|---|
| Store.Memory.Reserve | internal/store/store.go:20-30 | a new key stores a fresh pending delivery under its id and reserves it; a known key returns whatever is stored under the reserved id and changes nothing |
| Store.Memory.RollbackReservation | internal/store/store.go:32-40 | removes key and delivery if the key is reserved for that id, else nothing |
| Store.Memory.KeepReservation | internal/store/store.go:107-121 | removes the delivery but keeps the key, if the key is reserved for that id |
| Store.RollbackUndoesReserve | internal/store/store.go:26-39 | reserve then rollback restores both maps exactly |
| Store.Memory.ByState | internal/store/store.go:87-97 | lists exactly the deliveries in the state, each once, in any order |
| Store.Memory.Acquire | internal/store/lease.go:9-25 | grants a lease exactly to a non-terminal, due, unleased or lapsed delivery, with the next epoch; errors change nothing |
| Store.Memory.Complete | internal/store/lease.go:27-39 | only the holder of the current epoch completes |
| Store.Memory.Retry | internal/store/lease.go:41-56 | only the holder gives the lease back, pending at the given time with one more attempt |
| Store.Memory.Bury | internal/store/lease.go:58-72 | only the holder marks the delivery dead, with one more attempt |
| Store.Memory.ReviveDead | internal/store/lease.go:74-90 | makes a dead delivery pending again; not fenced by owner or epoch |
| Store.UndoneExactly | internal/store/store.go:32-40 | undoing a reservation takes the key and the id, keeping it the delivery alone, and neither touches anything unless the key is reserved for that id |
| Store.AcquireRefusedExactly | internal/store/lease.go:12-18 | LeaseConflict iff the delivery is due under a lease that still runs; InvalidState iff it is missing, finished or not due |
| Store.LeaseLastsItsTerm | internal/store/lease.go:16-24 | after a grant every Acquire before now + ttl conflicts, and any later one is granted, with the next epoch |
| Store.SettledByOwnerExactly | internal/store/lease.go:27-72 | of a delivery just leased, only the owner under that epoch completes, returns or buries it; what each leaves, attempt and last error included, in terms of the delivery before the lease |
| Store.SettledOnlyOnce | internal/store/lease.go:27-72 | after a settlement every further one fails until the next lease |
| Store.RevivalIsGivingBack | internal/store/lease.go:74-90 | burying and reviving is backing off but for the last error; only a dead delivery is revived |
| Journal.Memory.Append | internal/journal/journal.go:30-40 | a pending rejection refuses one append and is cleared; otherwise the entry gets the next sequence number |
| Journal.Memory.ReadAfter | internal/journal/journal.go:42-55 | the slice after a sequence number, at most `limit` long |
| Journal.SliceHoldsNext | internal/journal/journal.go:42-55 | that slice holds exactly the entries numbered in (sequence, sequence + limit] |
| Journal.Memory.Count | internal/journal/journal.go:57-61 | the number of entries |
| Journal.LastAfterRecord | internal/journal/journal.go:37-38 | an append becomes the newest entry of its delivery and of no other |
| Queue.Scheduler.constructor | internal/queue/queue.go:32-34 | a new scheduler is valid and empty |
| Queue.Scheduler.Swap | internal/queue/queue.go:21 | exchanges two heap items and keeps each item's index its position |
| Queue.Scheduler.Up | internal/queue/queue.go:20-21 | sift-up restores heap order from a hole that is only out of order with its parent |
| Queue.Scheduler.Down | internal/queue/queue.go:20-21 | sift-down restores heap order below a hole and says whether it moved |
| Queue.Scheduler.Fix | internal/queue/queue.go:41 | after a key at any position changed either way, heap order holds again |
| Queue.Scheduler.Push | internal/queue/queue.go:22 | a pushed item joins the ordered heap with its index set |
| Queue.Scheduler.Pop | internal/queue/queue.go:23 | removes the root, keeping order and indices of the rest |
| Queue.Scheduler.Schedule | internal/queue/queue.go:36-51 | acts on the map id to ready: moves a queued id, adds a new one if there is a slot, else QueueFull and no change |
| Queue.Scheduler.PopReady | internal/queue/queue.go:53-62 | removes and returns a due id of minimal ready time, the head; nothing exactly when nothing is due |
| Queue.Scheduler.Peek | internal/queue/queue.go:82-89 | returns the id PopReady would, and changes nothing |
| Queue.Scheduler.ReadyCount | internal/queue/queue.go:70-80 | the number of due ids in the map |
| Queue.Scheduler.HeadIsLeast | internal/queue/queue.go:56-58 | the heap's root is due whenever anything is, and nothing is ready before it |
| Queue.Scheduler.SizeIsLength | internal/queue/queue.go:44 | heap length is the number of scheduled ids, so the capacity test is on the map's size |
| HeapOrder.RootIsLeast | internal/queue/queue.go:20 | in an ordered heap the root is a minimum |
| HeapOrder.UpStep | internal/queue/queue.go:20-21 | one sift-up swap moves the only disorder to the parent |
| HeapOrder.DownStep | internal/queue/queue.go:20-21 | one sift-down swap moves the only disorder to the lesser child |
| Schedule.DrainReturnsDueInOrder | internal/queue/queue.go:53-80 | popping until nothing is returned yields exactly the due ids, once each, in ready order, ReadyCount of them |
| Schedule.DrainExists | internal/queue/queue.go:53-62 | every queue can be drained |
| Breaker.Breakers.Allow | internal/relay/breaker.go:28-43 | admits exactly when the circuit is not open and no probe is out; past the cooldown the call becomes the probe |
| Breaker.Breakers.Release | internal/relay/breaker.go:45-63 | a permit reports once: success closes, failure counts and opens at the threshold, from the time of the permit |
| Breaker.Breakers.IsOpen | internal/relay/breaker.go:66-71 | open means that Allow refuses; it is open iff Allow would refuse even with no probe out |
| Breaker.Breakers.Reset | internal/relay/breaker.go:79-83 | forgets the circuit |
| Breaker.CooldownLasts | internal/relay/breaker.go:28-63 | after a failure that reaches the threshold, of a permit granted at t, calls are refused before t + cooldown and from then on iff a probe is out; a success admits, any other failure changes nothing |
| BreakerRuns.BreakerInvariant | internal/relay/breaker.go:28-83 | in every run of Allow, releases and Reset: failures is the failing streak, openUntil is set iff the streak reached the threshold, a probe implies openUntil |
| BreakerRuns.RefusesExactly | internal/relay/breaker.go:28-83 | in every run a call is refused iff the last report was a failure, at least `threshold` in a row were, and the cooldown since that last permit was granted is not over or the probe flag is up |
| BreakerRuns.RefusesForProbeExactly | internal/relay/breaker.go:28-83 | in runs that forget no probe, the flag is up iff a probe is out, so these are the only grounds |
| BreakerRuns.ProbeExactKept | internal/relay/breaker.go:35-51 | a step keeps "flag up iff one probe is out" iff it is not a foreign report or reset while a probe is out |
| BreakerRuns.AtMostOneProbe | internal/relay/breaker.go:35-51 | runs without such steps never have two probes out |
| BreakerRuns.TwoProbes | internal/relay/breaker.go:50-51 | a run with two probes out at once |
| Transactions.BackoffFits | internal/relay/worker.go:125-133 | every delay is positive and fits int64 nanoseconds |
| Transactions.BackoffDoubles | internal/relay/worker.go:125-133 | a second at first, twice as long after each attempt up to 29, an hour from 30 |
| Transactions.BackoffDropsAtThirty | internal/relay/worker.go:129-132 | attempt 29 waits longer than attempt 30, which waits an hour |
| Transactions.BackoffCappedExactly | internal/relay/worker.go:125-133 | the delay is at most an hour iff the attempt is at most 11 or at least 30 |
| Transactions.BackoffMonotoneExactly | internal/relay/worker.go:125-133 | for a <= b the delay does not shrink iff not 12 <= a < 30 <= b |
| Transactions.WorkAmounts | internal/relay/worker.go:31-75 | an uninterrupted step never loses its lease; from its fate follow the delivery's state, the entry journaled and whether it is queued again |
| Transactions.SubmitAmounts | internal/relay/service.go:23-46 | an admission creates delivery, reservation, entry and queue slot together, or leaves store and queue as they were |
| Answers.SubmitAnswersExactly | internal/relay/service.go:23-46 | which error, delivery, flag and journal entries every Submit gives: InvalidState iff a field is empty, JournalRejected and QueueFull iff those refuse a new key, created iff none does |
| Transactions.RejectedSubmitUndone | internal/relay/service.go:36-44 | a rejected Submit changes nothing but the journal |
| Transactions.ResubmitAfterRejection | internal/relay/service.go:30-45 | after a rejection the same key is admitted as a fresh delivery if there is a slot |
| Answers.StepSettles | internal/relay/worker.go:31-122 | exactly what a step leaves of the delivery: buried iff the send failed, attempt + 1 reached MaxAttempts and the entry was taken; delivered, backed off, deferred, revived or left leased otherwise |
| Answers.StepDeliversExactly | internal/relay/worker.go:45-52 | a step answers true iff the delivery became delivered in it; StepFor also wants the entry taken |
| Answers.StepErrsExactly | internal/relay/worker.go:31-122 | each error iff its cause: lease, circuit, send, rejected entry or full queue; none iff the outcome is journaled and a pending delivery queued |
| RelayObjects.Service.Submit | internal/relay/service.go:23-46 | the method's effect on store, journal and queue is the admission function, rejections and full queue included |
| RelayObjects.Worker.Step | internal/relay/worker.go:25-75 | pops the head if one is due and does to the relay what the step function says; else nothing |
| RelayObjects.Worker.StepFor | internal/relay/worker.go:98-122 | the same for a named delivery, without the queue; a failed send leaves the lease standing |
| RelayObjects.Worker.StepOpen | internal/relay/worker.go:36-42 | an open circuit gives the lease back for a second |
| RelayObjects.Worker.StepDone | internal/relay/worker.go:45-52 | completes, then journals Delivered |
| RelayObjects.Worker.StepDead | internal/relay/worker.go:53-65 | buries and journals Dead, or revives when the entry is rejected |
| RelayObjects.Worker.StepRetry | internal/relay/worker.go:66-74 | backs off, journals Pending, queues at NextAttempt |
| BatchSteps.StepForDeliversOrFails | internal/relay/worker.go:98-122 | StepFor delivers and journals, or reports an error and journals nothing; it never returns false without an error |
| BatchSteps.StepBatch | internal/relay/worker.go:79-94 | no error: every id delivered once and journaled in order, nothing else touched; error: exactly the first `completed` ids were, only the next one may have changed in store or queue, and the error is that of its step |
| Replaying.ReplayInChunks | internal/relay/replay.go:22-37 | replaying a then b is replaying a + b, stopping in a if a stops |
| Replaying.ReplayStopsAtFirstMisfit | internal/relay/replay.go:29-31 | a replay stops exactly before a Pending entry the full queue refuses, having applied all before it |
| Replaying.ReplayIsLastWriterWins | internal/relay/replay.go:27-35 | a complete replay queues each delivery at its newest Pending entry's time |
| Replaying.ReplayFits | internal/relay/replay.go:29-31 | with a slot for every id no replay is stopped |
| RelayObjects.Replay.Run | internal/relay/replay.go:22-37 | the cursor advances by exactly the processed count, error or not, and the queue is that of the replayed slice |
| RelayObjects.Replay.RunAll | internal/relay/replay.go:46-59 | ends with the cursor at the journal's end, or before the entry that did not fit; the effect is that of one replay of all that was ahead |
| RelayObjects.Replay.Remaining | internal/relay/replay.go:61-72 | the entries ahead of the cursor |
| AtomicRuns.JournalAgreesWithStore | internal/relay/worker.go:25-122 | in every run: unfinished deliveries were last journaled Pending, a last Delivered or Dead entry is true, and store and journal differ exactly on completions whose entry was rejected |
| AtomicRuns.AdmittedOnce | internal/relay/service.go:30-35 | at any later point of any run, a repeat of an admitted key returns that delivery and changes nothing |
| AnswerRuns.CreatedOnce | internal/relay/service.go:30-45 | in every run Submit answers created exactly once for each reserved key and for no other |
| AnswerRuns.DeliveredIsReportedOnce | internal/relay/worker.go:45-122 | in every run Step and StepFor answer true at most once for a delivery, only for one that is delivered, and for each one whose entry was taken |
| AnswerRuns.RefusedAfterFailuresExactly | internal/relay/breaker.go:28-63 | between the operations of any run a circuit refuses iff the last send to the endpoint failed, at least `threshold` in a row did, and less than the cooldown has passed since it began |
| AnswerRuns.NeverBuriedEarly | internal/relay/worker.go:53-65 | in every run a dead delivery has used up the attempts that all the run's workers allow |
| AtomicRuns.NoProbeBetweenSteps | internal/relay/worker.go:35-44 | no probe is outstanding between steps |
| AtomicRuns.CooledCircuitAdmits | internal/relay/breaker.go:31-42 | between steps a circuit refuses exactly while it is open |
| AtomicRuns.QueueCoversPending | internal/relay/worker.go:25-75 | without StepFor and restarts: nothing stays leased, and the queue is the map of pending deliveries to NextAttempt, except those stranded by a rejected retry entry |
| RestartRuns.RestartCoversPending | internal/relay/replay.go:46-59 | after a restart with room, at every later point before the next, StepFor included: a pending delivery is queued iff no rejected entry or full queue left it out and no step popped it too soon, and then no later than its NextAttempt |
| AtomicRuns.StepAlwaysProceeds | internal/relay/worker.go:27-74 | in such runs a popped delivery is leased and settled, and rescheduling it never meets a full queue |
| AtomicRuns.OutcomeCovers | internal/relay/worker.go:36-74 | one step keeps that coverage |
| AtomicRuns.FinishedIsNeverSent | internal/store/lease.go:12-15 | a delivery delivered or dead after a whole operation stays so through the rest of any run, restarts included, and no Step or StepFor for it reaches Send |
| Recovery.RecoveryCoversUnfinished | internal/relay/replay.go:46-59 | after any run, a replay into a large enough fresh scheduler queues every unfinished delivery no later than its NextAttempt |
| Recovery.RecoveredStepIsSafe | internal/relay/worker.go:27-34 | after a restart, at every later point of any run: a step for an id that was delivered or dead sends nothing, and a step goes ahead iff the delivery is unfinished, due and not under a live lease |
| Recovery.EarlyStepForgets | internal/relay/worker.go:31-34 | a step drops a pending delivery from the queue without touching it iff it comes before NextAttempt |
| Recovery.EarlyStepHappens | internal/relay/replay.go:28-29 | a run of a submit, a failing step, a restart and a step before NextAttempt, after which a pending delivery is in no queue |
| DockRuns.JournalAgreesWithStore | internal/relaydock/service.go:94-127 | when the orchestration service admits and relay workers deliver, restarts included, store and journal differ exactly on completions whose entry was rejected |
| DockRuns.QueueCoversPending | internal/relaydock/service.go:94-127 | in such runs without StepFor and restarts nothing stays leased, and the queue is the map of pending deliveries to NextAttempt, except those stranded by a rejected retry entry or dropped by another's rejected Submit and not swept up since |
| Overdue.RequeuedCount | internal/relaydock/service.go:331-341 | the sweep's count is (due and queued) + min(free slots, due and not queued) |
| Overdue.OrderDoesNotMatter | internal/relaydock/service.go:333 | the count does not depend on the order of the listing, nor does the queue when all fit |
| Overdue.AllDueFit | internal/relaydock/service.go:333-338 | with enough slots every due delivery is queued |
| Dock.Service.RetryOverdue | internal/relaydock/service.go:331-341 | that count, and every due delivery that is queued is queued at its NextAttempt; nothing else moves |
| Dock.Service.Submit | internal/relaydock/service.go:94-127 | the effect on store, journal, queue and batch window, all three refusals included; what a rejection pops is the queue's head, and none only when nothing is due |
| Dock.SubmitFailsExactly | internal/relaydock/service.go:109-127 | a Submit of a new key fails iff the journal, the queue or the window refuses |
| Dock.AcceptedEverywhere | internal/relaydock/service.go:109-127 | a new key nobody refuses: the fresh delivery is returned, stored, reserved, journaled, queued, and its item put last into the window |
| Dock.RefusalsReported | internal/relaydock/service.go:109-127 | which refusal each error reports, that the delivery comes with a window's refusal and with no other, and what the journal holds |
| Dock.NothingNewAnswers | internal/relaydock/service.go:98-112 | a malformed event is an error, a reserved key returns what its id stores, and neither changes anything |
| Dock.RestoredExactly | internal/relaydock/service.go:113-127 | a failed Submit of a new key restores store and queue iff it was the queue that refused |
| Dock.RejectionSpendsKey | internal/relaydock/service.go:109-116 | after a rejection the key stays reserved with no delivery, and every later Submit of it succeeds with the zero delivery |
| Dock.QueueLosesExactly | internal/relaydock/service.go:113-117 | the queue loses an id iff the journal rejects a new key and something is due |
| Dock.RejectionDropsAnother | internal/relaydock/service.go:113-117 | what it loses is the least due delivery, which stays pending and due |
| Dock.FullWindowAdmits | internal/relaydock/service.go:124-126 | with a full window Submit reports a failure with the delivery stored, reserved, journaled and queued |
| Dock.SecondSubmitFailsAndIsAdmitted | internal/relaydock/service.go:124-126 | two Submits into a window for one item, of which the second fails and is admitted |
| Dock.IdsCollide | internal/relaydock/service.go:108 | endpoint a with key b-c and endpoint a-b with key c get one id |
| Dock.CollisionReplaces | internal/store/store.go:20-30 | a new key under a stored id, accepted, replaces the delivery that was there by a fresh one |
| LeaseTheorems.Fencing | internal/store/lease.go:9-72 | every interleaving: an epoch is settled at most once, by the process it was granted to and before the next grant; the epoch counts grants; attempts + 1 <= epoch while leased or delivered |
| LeaseTheorems.LeaseExclusion | internal/store/lease.go:16-23 | while the clock does not go back, of two unsettled leases the older has run out |
| LeaseTheorems.SendBudget | internal/relay/worker.go:53-74 | failed sends settled are at most max(1, MaxAttempts) + revivals |
| LeaseTheorems.CompletionIsFinal | internal/store/lease.go:27-39 | a completion is the last event of its incarnation, and every lease operation on a delivered delivery fails |
| LeaseTheorems.CompletionPersists | internal/store/lease.go:12-15 | a delivered delivery is delivered at every later point of its incarnation |
| LeaseTheorems.DeliveredJournaledOnce | internal/relay/worker.go:45-51 | the journal holds at most one Delivered entry per incarnation, and only of a completed one |
| LeaseTheorems.BackoffSpacing | internal/relay/worker.go:66-67 | up to attempt 30, after k failed sends the next lease is at least 2^k - 1 seconds after reservation, in every incarnation that no worker left over from an earlier one has revived |
| LeaseSpacing.SpacingExactly | internal/relay/worker.go:60-67 | over a whole run a delivery is well spaced at every point iff no ReviveDead call in it comes too early, a condition on the call |
| LeaseSpacing.RevivalSpacing | internal/store/lease.go:76-90 | one ReviveDead call keeps the spacing iff attempt > 30 or it is set no earlier than the failures demand |
| LeaseSpacing.OwnRevivalIsSpaced | internal/relay/worker.go:59-60 | only a worker of an earlier incarnation can be too early before any such worker has revived the delivery |
| LeaseSpacing.SpacingWithoutEarlyRevivals | internal/relay/worker.go:66-67 | without such a call the 2^k - 1 seconds hold in every incarnation |
| LeaseSpacing.RevivalAdvancesExactly | internal/store/lease.go:76-90 | in any state a revival that takes effect moves NextAttempt forward iff it was earlier than a second after the caller's step began |
| LeaseTheorems.NextAttemptAdvances | internal/relay/worker.go:37-67 | every retry moves NextAttempt forward, and so does every revival by a worker of the same incarnation before any revival by a worker of an earlier one |
| Uninterrupted.StepAlone | internal/relay/worker.go:25-75 | from any state, a Step whose calls nobody interrupts leaves the relay where the step function does, and everything else as it was |
| Uninterrupted.StepAloneFindsNothing | internal/relay/worker.go:27-30 | a Step that finds nothing due changes nothing |
| Uninterrupted.StepForAlone | internal/relay/worker.go:98-122 | the same for StepFor |
| Uninterrupted.SubmitAlone | internal/relay/service.go:23-46 | the same for Submit |
| SerialRuns.SerialIsAtomic | internal/relay/worker.go:25-122 | an interleaved run without overlap has the relay of the run of whole operations |
| SerialRuns.SerialRunsAgree | internal/relay/worker.go:25-122 | in such runs store and journal differ exactly on completions whose entry was rejected |
| JournalOrder.AppendAgreesExactly | internal/relay/worker.go:50-71 | in any state, an accepted entry leaves journal and store in agreement iff the store says at that moment what the entry says |
| JournalOrder.UnspoiltRunsAgree | internal/relay/worker.go:45-74 | in every interleaving, whatever entries are rejected: if no call took an untrue entry, lost a needed one, or revived or rolled back after another's entry was taken, journal and store agree about a delivery whenever no process has an entry, revival or rollback of it left to do |
| JournalOrder.SpoilingDisagrees | internal/relay/worker.go:45-74 | each of those calls, in any state, leaves journal and store at odds at once |
| JournalOrder.ExecMends | internal/relay/worker.go:25-122 | every other transition keeps: the newest entry is true, or the next call of some process brings journal and store together |
| StaleWorkers.StaleRevivalBreaksSpacing | internal/store/lease.go:76-90 | a run whose last call, an unfenced revival, takes NextAttempt back from a day to one second, before the delivery's own reservation |
| StaleWorkers.StaleEntryFollowsDelivery | internal/relay/worker.go:67-71 | a run without rejections in which a delivered delivery is last journaled Pending, by a worker that was overtaken |
| LeaseSteps.ExecKeeps | internal/relay/worker.go:25-122 | every transition of every process keeps the lease invariant |
| LeaseSteps.LoggedStep | internal/store/lease.go:9-90 | a sound change of one delivery keeps the records of all deliveries and the claims of all processes |
| LeaseSteps.RollbackStep | internal/store/store.go:32-40 | a rollback under running workers keeps the invariant |
| LeaseLog.SettledOnce | internal/store/lease.go:31-70 | later settlements settle later epochs |
| LeaseLog.UnsettledHasLapsed | internal/store/lease.go:16-18 | a lease nobody settled had run out before the next was granted |
| Retention.AlwaysConserved | internal/retention/ledger.go:37-119 | in every run the multiset of accepted ids is that of live plus purged ids |
| Retention.ExpiresAfterDays | internal/retention/policy.go:16-21 | expiry keeps an entry iff now is before its recording plus RetentionDays of 86400 seconds |
| Retention.TrackAnswersExactly | internal/retention/ledger.go:37-49 | which ids are refused and why; an accepted one is recorded with its reason and time, last in order |
| Retention.TrackedForDays | internal/retention/ledger.go:37-78 | with no maximum, what is tracked at t survives a pass at now iff now < t + RetentionDays |
| Retention.OldestFirst | internal/retention/ledger.go:46-47 | listed by age means: never a later recording before an earlier one |
| Retention.ReapIsExact | internal/retention/reaper.go:34-37 | a pass keeps nothing too old, fits MaxDead, and removes a retained entry only to reach MaxDead |
| Retention.EvictionIsShortest | internal/retention/ledger.go:104-119 | eviction takes the shortest oldest prefix after which the ledger fits |
| Retention.ReapCutsTheFront | internal/retention/reaper.go:34-37 | oldest first, a pass is one cut at the front, at the later of the two limits |
| Retention.AlwaysByAge | internal/retention/ledger.go:46-47 | while the clock does not go back entries are listed oldest first |
| Retention.RemovedIsPurged | internal/retention/reaper.go:35-37 | what a pass removes is what it appends to the purged ids |
| Retention.ExpiryTakesTheStale | internal/retention/ledger.go:54-69 | expiry removes an entry iff the policy no longer retains it |
| DeadLetters.Compact | internal/retention/ledger.go:70-76 | in-place compaction leaves the survivors, in order, at the front of the same array |
| DeadLetters.Ledger.TrackDead | internal/retention/ledger.go:37-49 | refuses the empty id and a tracked one; otherwise records it last |
| DeadLetters.Ledger.PurgeExpired | internal/retention/ledger.go:51-78 | returns the expired ids in order and removes exactly them from entries and order |
| DeadLetters.Ledger.PurgeOverCapacity | internal/retention/ledger.go:104-119 | the one-by-one eviction equals removing the whole prefix at once |
| DeadLetters.EvictionEnds | internal/retention/ledger.go:108 | the loop stops at exactly that prefix |
| Lists.StringLeByFirstDifference | internal/retention/reaper.go:38 | strings are ordered by the first position at which they differ, a prefix first |
| DeadLetters.Reaper.Run | internal/retention/reaper.go:34-47 | returns, in string order, a permutation of exactly the ids the pass removed |
| Health.PruningIsInvisible | internal/route/health.go:41-52 | for a query no earlier than those before it, the pruned history shows what the full one would |
| Health.SeenWholeExactly | internal/route/health.go:41-52 | over a whole run, a query at any time sees its window whole iff no later query of the endpoint had cut off an observation inside it |
| Health.RateOverFullHistory | internal/route/health.go:41-71 | so rate and verdict are those over the full history |
| Health.PruningHidesBetween | internal/route/health.go:47-52 | pruning at one cutoff is invisible at another iff no observation lies between them |
| Health.LookingBackMisses | internal/route/health.go:45-52 | a query that looks back finds its window emptied |
| Health.RateCounts | internal/route/health.go:56-62 | rate times observations is the number of positions that hold a success |
| Health.PassesCounts | internal/route/health.go:65-71 | healthy iff nothing was observed or that number is at least threshold times the observations |
| Health.AnswersForRun | internal/route/health.go:41-71 | over a run, unless a later query cut something off: rate and verdict follow from how many observations the run made in the window and how many succeeded |
| Health.RateIsFraction | internal/route/health.go:56-62 | the rate is in [0, 1], and 1 iff nothing in the window failed |
| Health.HealthTracker.Observe | internal/route/health.go:33-39 | appends to the endpoint's history |
| Health.HealthTracker.SuccessRate | internal/route/health.go:41-63 | prunes the history to the window and returns its success share, or none |
| Health.HealthTracker.Healthy | internal/route/health.go:65-71 | healthy without observations, or at the threshold |
| Batches.AlwaysAccounted | internal/batch/window.go:43-74 | in every run each accepted item is waiting, flushed or removed, once; ids stay distinct and the window within capacity |
| Batches.RemovingFlushed | internal/batch/flusher.go:85-92 | removing the flushed items by id leaves exactly the items not selected, in order |
| Batches.NothingFlushedEarly | internal/batch/window.go:82-86 | no flush of a run takes anything before the interval has passed since the window opened |
| Batches.FlushesOnceOpen | internal/batch/flusher.go:28-51 | from then on a flush takes everything |
| Batches.FlushedOldestFirst | internal/batch/flusher.go:38 | what is flushed is exactly what was selected, longest waiting first |
| Batches.FlushedForEndpoint | internal/batch/flusher.go:78-102 | a flush for an endpoint takes exactly its items and leaves exactly the others |
| Batches.AddAnswersExactly | internal/batch/window.go:43-58 | which items are refused and why, and where an accepted one goes |
| BatchWindow.Window.Add | internal/batch/window.go:43-58 | refuses an empty id or a full window, ignores a waiting id, else appends |
| BatchWindow.Window.Remove | internal/batch/window.go:60-74 | removes the item from map and order, or reports an unknown id |
| BatchWindow.Window.IsReady | internal/batch/window.go:82-86 | ready iff not empty and the interval has passed |
| BatchWindow.Window.Snapshot | internal/batch/window.go:88-96 | the items in order |
| BatchWindow.Window.GroupByEndpoint | internal/batch/window.go:100-109 | each bucket holds the endpoint's items, in order |
| BatchWindow.Flusher.Flush | internal/batch/flusher.go:28-51 | when ready, returns all items sorted by age and empties the window; else nothing |
| BatchWindow.Flusher.FlushFor | internal/batch/flusher.go:78-102 | when ready, returns the endpoint's items sorted by age and leaves the others untouched, in order |

## Left out

- Widths: epochs, attempts and sequence numbers (uint64, int) and time arithmetic are unbounded here; `RetentionDays * 24h` is not wrapped at int64, and `time.Sub` does not saturate.
- `ReadAfter`: `sequence + limit` does not overflow.
- Concurrency primitives: each mutex-protected section is one atomic action, and `sync.Once` is a `used` flag.
- Sending and cancellation: the sender's outcome is a parameter, `ctx.Err()` checks in `StepBatch` and in the orchestration service are not modelled.
- Hashing: murmur3 is only an injective function from keys to the relay's ids. The orchestration service's ids, `"delivery-" + spec.ID + "-" + key`, can collide without any hash (`Dock.IdsCollide`); `Dock.RestoredExactly` and its neighbours require an id that is not stored, and `Dock.CollisionReplaces` has the other case. The branch of `Submit` that fills an empty event id cannot be reached, since `Valid` demands an id, and is not modelled.
- LeaseTheorems.BackoffSpacing: does not cover incarnations revived by a worker left over from an earlier one; LeaseSpacing does, with the exact condition.
- LeaseTheorems.NextAttemptAdvances: does not cover revivals by, or after one by, a worker left over from an earlier incarnation, because NextAttempt may then go back: `StaleWorkers.StaleRevivalBreaksSpacing` has a run, `LeaseSpacing.RevivalAdvancesExactly` the condition.
- AtomicRuns.JournalAgreesWithStore: is about whole operations; under interleaving it fails, and JournalOrder says which calls break it.
- AtomicRuns.QueueCoversPending: not claimed for runs with StepFor, which may leave a lease standing, or with restarts, which queue what the journal says; RestartRuns has what holds then.
- RelayObjects.Replay.RunAll: on an error the returned count leaves out the failing batch, as in the source; the cursor tells the true progress.
- Dock.Service.Submit: routing, event-id generation, expiry and priority are left out, and one instant stands for the several clock reads.
- BatchWindow.Flusher.Flush: the bounded history of flushes is left out, and so are those of the reaper; `windowAt` is never reset by the source, hence a constant.
- Health.HealthTracker.SuccessRate: the rate is an exact real, without floating-point rounding; publishing scores to the registry is left out.
- DeadLetters.Ledger.TrackDead: the buffer grows to its own size, not by Go's growth policy.
- Listing and counting helpers (`Events`, `ActiveCount`, `Transitions`, `Endpoints`, `Reasons`, `Purged`, ...) and `core.Summarize`: easy members.
- `internal/route/registry.go`, `internal/route/planner.go`, `internal/receipt`, `internal/expiry`, `internal/batch/priority.go`: set bookkeeping next to the core.
- `Dispatch`, `DispatchByEndpoint` and the supervisor in `internal/relaydock`, and `cmd/relaydock`: they neither lease nor settle store deliveries.
