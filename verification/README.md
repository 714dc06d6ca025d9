# Quacker, modelled and proved in Dafny

Quacker runs workflows of steps out of one database. Clients enqueue runs, an
engine claims due steps and executes them, executors record how each step ended,
and steps may sleep or wait for events for as long as they like. This project
models the parts whose correctness does not show in any one function:

* **The store** (`Schema`, `Transitions`, `Enqueue`, `Machine`): every transaction
  as a function from database to database, and the databases that sequences of
  transactions reach from the empty one, whatever clients and executors do, as
  long as each keeps what `Machine.Enabled` asks of callers and the clock does not
  run backwards. `Store.dfy` has the same transactions in the program's own form:
  a class whose methods update tables of rows in place, with the program's loops,
  each proved equal to its function.
* **What holds in every reachable database**: `Frame` and `Bystanders` say once what
  each transaction leaves alone; on them rest `Progress` (dependency safety,
  run by run), `Disruptions` (no stuck workflow, and what sweeps and boots do to that),
  `Outcomes` (how runs end), `Cancellations`, `Completion` (fast forms against simple
  ones), `Claims`, `Caps`, `Rate`, `Sequence`, `Unique`, `Strategies`, `Batching`,
  `Attempts` and `Waits`. `Effects` says in the tables' columns what each transaction
  leaves.
  `Histories` spells out legal histories in which a property's condition fails and
  the property with it.
* **Executors** (`Executor`): which transaction ends a claim, and how a
  cancellation reaches the executor it is meant for.
* **Durable execution** (`Durable`, `Replay`, `StepState`, `Discipline`, `Driving`): a
  deterministic function of the answers it got so far, run again from the start
  after every suspension, retry and restart, against the journal; and many of them
  at once, among everything else that happens to the store.
* **The batched completer** (`Completer`): submitters, one loop and a stop, in any
  interleaving of their atomic steps.
* **Graphs**: DAG validation and groups (`Dag`, `Groups`), the edge router
  (`Routes`, `ShortestPaths`, `Router`), the nested layout (`Layout`, `Boxes`, `Clusters`).
* **The placeholder rewriter** (`Rebind`).

Transactions are atomic and serial, as SQLite's single writer and the claim and run
locks make them. Where the text below says "always", it means: in the database that
any legal sequence of operations leaves, by induction over the sequence.

## Reading order

`Schema.dfy`, `Transitions.dfy`, `Enqueue.dfy` and `Machine.dfy` define the state
machine; `Progress.dfy` has the central invariant. `dafny verify dfyconfig.toml`
checks everything.

## What the code does not do

Properties that hold only with a condition, and histories in which they fail. The
lemma named with a condition is an if-and-only-if.

* A sweep of one worker's leases can leave an INTERRUPTED step in a run that stays
  live. Only boot recovery brings it back, which two backends never run
  (postgres/postgres.go:111, mysql/mysql.go:107), and the run does not wait for it.
  It can be left with nothing to execute (`Histories.SweepLeavesRunStuck`), and it can
  become SUCCEEDED without that step (`Histories.SuccessWithoutAStep`).
  What holds in every history is `Outcomes.SuccessMeansAllDone`: when a completion
  makes a run SUCCEEDED no step of it is FAILED, and all of them are SUCCEEDED exactly
  when each was active or SUCCEEDED before the call (`Outcomes.CompletionEnds`).
  As long as no boot brings the run back hurt, interrupted steps are the only thing
  that stops it (`Disruptions.StuckOnlyIfInterrupted`) and the only thing that makes
  it end incomplete (`Outcomes.UnhurtIsWhole`).
* The conditions that spare a run, each about this run alone. The sweep of a worker
  does exactly when the run is RUNNING and has nothing active elsewhere, or nothing
  under that worker (`Disruptions.WorkerSweepKeepsMoving`); and whatever it does, a
  live run has a step that can execute right after it exactly when it had one the
  worker did not hold (`Disruptions.RightAfterSweep`). The sweep of the whole process
  spares a run exactly when the run is RUNNING or none of its steps is
  (`Disruptions.SweepKeepsMoving`), which a PAUSED run need not meet
  (`Histories.SweepLeavesPausedRunStuck`). A boot that keeps interrupted work brings a
  run back able to move exactly when it was; one that fails it does exactly when it finds
  no lost step in a live run that is not RUNNING (`Disruptions.BootKeepsMoving`,
  `Histories.BootLeavesPausedRunStuck`), and leaves QUEUED steps behind in exactly the
  FAILED runs `Disruptions.QueuedInFailedRuns` says.
* Dependency safety survives a boot exactly when the dependencies of the steps it
  requeues still stand (`Progress.BootKeepsSafe`). They need not: an executor whose
  lease ran out may report a failure after its step was completed elsewhere, and
  FinalFailStep writes it (`Histories.BootStartsOnFailed`).
* `RetryDeadLetter` does not clear the journal. A step that was waiting for an
  event when its run failed loads that wait undone when it is claimed again; if the
  event arrives before it gets there, it suspends on a wait that is already done
  and is never woken (`Waits.DeadLetterLosesWakeup`, and from the empty database
  `Histories.RetryLosesWakeup`). The invariant on waits survives the retry exactly
  when every wait in the run's journals is decided or overdue (`Waits.RetriesInTime`);
  the theorems on waits are about histories whose retries meet that. Any claim that
  loads a wait which is neither, in whatever history, has a continuation that strands
  its step (`Waits.OpenClaimStrands`).
* A dead-letter retry reopens an old number. The order of its sequences survives
  exactly when no later step of another run has begun (`Sequence.RetryInOrder`);
  `Histories.RetryBreaksOrder` has two runs of one sequence execute at once. Boots
  that requeue interrupted steps have the same condition (`Sequence.BootInOrder`, and
  `Histories.BootBreaksOrder`). Steps inserted with a sequence key and no number, as
  Cron's are, and those of a run whose first step has no sequence key, come before every
  numbered one: they are in order exactly when nothing of the sequence has begun and
  none of its other runs lacks a number (`Sequence.InsertUnnumbered`, and
  `Histories.UnnumberedBreaksOrder`).
* Replay does not need a deterministic body to stop at a failed `RunOnce`, but its
  calls must not depend on the failure: between answers that differ only in RunOnce
  calls that failed and later succeeded, the next call has the same kind, key and
  event, or the body returns. A body never meets another call's journal entry
  exactly when it is so (`Replay.AlignedExactlyWhenConsistent`). Bodies that give up
  at an error are (`Replay.GivingUpIsConsistent`), and so is the documented one that
  ignores its charge's error and sleeps (`Replay.SagaIsConsistent`);
  `Replay.StubbornMisaligns` is one that is not.
* A run read as live and cancelled before the executor's transaction can leave a
  QUEUED step in a CANCELLED run (`Executors.LateReturn` says exactly when), and
  the claim gates let that step be claimed again (`Executors.LateReturnExecutes`),
  because they ask of its run only that it is not PAUSED.
* Cancelling a run spares its executing steps. If the process crashes before they
  return, the next one requeues them without asking what became of the run
  (`Cancellations.BootRequeuesCancelled` says which steps), and the cancelled run
  executes (`Histories.BootRunsCancelled`). A run of which no step executed or was
  interrupted stays cancelled for good (`Cancellations.CancelledForGood`).
* The router's outer border does not by itself guarantee a detour. It connects two
  ports that can get out of their corridor and up along a grid line (`Routes.Detour`);
  when an obstacle covers a port there is no route (`Routes.PortsAreFree`).
* `recordFinalFailure` looks up the dead-letter option by the stored task name
  without the fallback to the step name that `execute` uses, so whether a failure
  is dead-lettered is an input of the model.

## Model

| member | source | states |
|---|---|---|
| Disruptions.NoStuckWorkflow | internal/store/queries.go:1384-1562 | always, for a run that is not terminal and that each sweep and boot spared, whatever they did to others: it has a step QUEUED, RUNNING or SUSPENDED |
| Disruptions.MovesAlways | internal/store/queries.go:1384-1562 | the invariant behind it: while such a run is live, no BLOCKED step has all its dependencies SUCCEEDED, each other step is active or SUCCEEDED, and one is not SUCCEEDED yet |
| Disruptions.StuckOnlyIfInterrupted | internal/store/store.go:135-223 | through any sweeps, and boots that bring the run back only as one that can move: a live run without an INTERRUPTED step has a step that can execute |
| Disruptions.MovesThroughout | internal/store/store.go:135-223 | the invariant behind that: interrupted steps apart, a live run is always on its way |
| Disruptions.SessionsAreUndisrupted | internal/store/schema.go:447-522 | processes that end and boot again with interrupted work kept spare every run |
| Disruptions.WorkerSweepKeepsMoving | internal/store/store.go:177-223 | sweeping one worker's leases keeps a run on its way and without INTERRUPTED steps if and only if the worker holds none of its steps, or the run is RUNNING with nothing active but what the worker holds; ephemeral and terminal runs apart |
| Disruptions.RightAfterSweep | internal/store/store.go:177-223 | a run that is live after the sweep has a step that can execute if and only if it had one that was not RUNNING under the worker |
| Disruptions.SweepKeepsMoving | internal/store/store.go:135-176 | the sweep of the whole process does so if and only if the run is RUNNING, over, or has no RUNNING step |
| Disruptions.BootKeepsMoving | internal/store/schema.go:447-522 | a boot leaves a run on its way and without INTERRUPTED steps, hurt before or not, if and only if: keeping work, a run it brings back can move; failing it, no live run that is not RUNNING has a step left unfinished |
| Disruptions.QueuedInFailedRuns | internal/store/schema.go:447-522 | a boot that fails interrupted work leaves QUEUED steps in a FAILED run if and only if the run is kept, was RUNNING, INTERRUPTED or FAILED, and had QUEUED steps |
| Histories.SweepLeavesRunStuck | internal/store/store.go:177-223 | from the empty database: two steps in a row, the first executing under a worker whose leases are swept, leave a live run without a step that can execute |
| Histories.SweepLeavesPausedRunStuck | internal/store/store.go:135-176 | from the empty database: the process closes while the only step of a PAUSED run executes, and the live run is left with it INTERRUPTED |
| Histories.BootLeavesPausedRunStuck | internal/store/schema.go:447-522 | the process crashes instead, the next fails interrupted work, and the live run is left with its only step FAILED |
| Progress.Descend | internal/store/queries.go:1485-1562 | following unfinished dependencies from any unfinished step of a run on its way ends, by acyclicity, at a step that can execute or was interrupted |
| Progress.LiveRunsCanMove | internal/store/queries.go:1485-1562 | so a live run on its way has a step that can execute or was interrupted |
| Progress.DependencySafety | internal/store/queries.go:1544-1638 | always, if boots requeue steps of its run only on dependencies that stand: a QUEUED, RUNNING or SUSPENDED step has every dependency SUCCEEDED, although FinalFailStep writes FAILED unguarded |
| Progress.SessionsBootSafely | internal/store/schema.go:447-522 | which holds of processes that end and boot again as a whole |
| Progress.SafeAlways | internal/store/queries.go:1587-1659 | under the same condition, for all steps of a run through every operation, shutdown sweeps included |
| Progress.BootKeepsSafe | internal/store/schema.go:447-522 | a boot keeps dependency safety of a run if and only if, where it keeps interrupted work, every INTERRUPTED step has all dependencies SUCCEEDED |
| Histories.BootStartsOnFailed | internal/store/queries.go:1587-1638 | from the empty database: a lease runs out, the step is completed elsewhere and its dependent interrupted there, the first executor reports a failure, and the next boot queues the dependent in a live run on a FAILED dependency |
| Progress.ShapedAlways | internal/engine/engine.go:1015-1106 | always, whatever sweeps and boots do: the dependencies of a run are known and acyclic, and its steps have distinct orders |
| Progress.RowsAlways | internal/store/queries.go:633-642 | every step row has its run row and every journal its step, through deletions and purges |
| Progress.DirectDependentsSuffice | internal/store/queries.go:1485-1562 | unblocking the direct dependents of the step that finished unblocks the same steps as scanning the whole run |
| Completion.FastPath | internal/store/queries.go:1392-1431 | for a run of one step the short path gives the same rows and the same result as the general one |
| Completion.BatchIsEach | internal/store/queries.go:1344-1379 | completing a batch with step counts read once equals completing one by one in order, failures included |
| Completion.BatchPrefix | internal/store/queries.go:1318-1379 | counts read before the batch stay right through it |
| Completion.ConcludesIsConclude | internal/store/queries.go:1441-1479 | the closing query, whose choice of last step may be any of highest order, has one possible outcome in a run of distinct orders |
| Completion.CompletesIsComplete | internal/store/queries.go:1384-1479 | so the nondeterministic completion is the function the invariants are about |
| Completion.HealthyAlways | internal/store/queries.go:1384-1479 | every history whose boots bring runs back only as ones that can move leaves a database in which that is so |
| Completion.ChainIsBatch | internal/store/queries.go:1344-1379 | a chain of completions, each with any of its possible outcomes, is the batch |
| Completion.ChainIsEach | internal/store/queries.go:1344-1379 | a committed batch, through whatever states it passed, is the one-by-one completion |
| Outcomes.TerminalStays | internal/store/schema.go:31-37 | any operation: SUCCEEDED and CANCELLED runs keep their status, FAILED is left only by a dead-letter retry, INTERRUPTED only by boot recovery |
| Outcomes.FinalIsForever | internal/store/schema.go:31-37 | over whole runs of the system: once SUCCEEDED or CANCELLED, always so while the row exists |
| Outcomes.NoSuccessAfterTheEnd | internal/store/queries.go:1385-1409 | no operation makes a step SUCCEEDED in a run that was terminal |
| Outcomes.OnlyCompletionSucceeds | internal/store/queries.go:1441-1479 | no operation but a step's completion makes a run SUCCEEDED |
| Outcomes.CompletionEnds | internal/store/queries.go:1441-1479 | a completion that ends its run makes it FAILED if and only if a step has failed, else SUCCEEDED; its steps have then all SUCCEEDED if and only if each was active or SUCCEEDED before; it reports a last step's output in any case |
| Outcomes.CompletionEndsWell | internal/store/queries.go:1441-1479 | so a completion that ends a run of which nothing was lost ends it SUCCEEDED, with all steps SUCCEEDED and the output of the step of highest order |
| Outcomes.SuccessMeansAllDone | internal/store/queries.go:1441-1479 | always, in every legal history: the operation that turns a run SUCCEEDED completes a step of it while none is FAILED and leaves the last step's output; and all its steps are SUCCEEDED if and only if each was active or SUCCEEDED before |
| Histories.SuccessWithoutAStep | internal/store/store.go:177-223 | from the empty database: of two sibling steps under two workers one is swept and the other completes, and the run is SUCCEEDED with the first INTERRUPTED |
| Outcomes.SparedIsWhole | internal/store/store.go:135-223 | a live run that each sweep and boot spared has only active and SUCCEEDED steps |
| Outcomes.UnhurtIsWhole | internal/store/store.go:135-223 | through any sweeps, and boots that bring the run back only as one that can move: a live run has only such steps if and only if none is INTERRUPTED |
| Frame.OpQuiet | internal/store/queries.go:1565-1867 | only claims start steps and stamp them, only enqueues add rows, and no operation rewrites the columns fixed at enqueue |
| Frame.OpSteady | internal/store/queries.go:1565-1867 | outside revivals and sweeps, finished steps stay finished and no run or step is interrupted |
| Frame.SessionsSettle | internal/store/schema.go:447-522 | after any number of process lifetimes nothing is left INTERRUPTED once booted |
| Frame.RebootSettles | internal/store/schema.go:447-522 | a boot clears INTERRUPTED whether work is kept or not and never reactivates a finished step |
| Cancellations.CancelStops | internal/store/queries.go:1675-1725 | cancelling a live run leaves it CANCELLED with no step QUEUED, BLOCKED or SUSPENDED, its RUNNING steps and all other runs as they were; an ephemeral run goes; any other call does nothing |
| Cancellations.VictimStops | internal/store/queries.go:317-347 | so does a strategy's cancellation |
| Cancellations.EnqueueStops | internal/store/queries.go:128-239 | after an enqueue every run it reports as replaced is gone, or CANCELLED with nothing left to start |
| Cancellations.ReplacedHalts | internal/store/queries.go:128-239 | and of the run whose unique key was taken over no step is active, RUNNING ones included |
| Cancellations.CancelledForGood | internal/store/queries.go:1675-1725 | over every legal history: once a run is cancelled of which no step was RUNNING or INTERRUPTED, none of its steps is ever active again |
| Cancellations.BootRequeuesCancelled | internal/store/schema.go:447-522 | after a boot that keeps work, a step of a CANCELLED run is QUEUED if and only if it was QUEUED, RUNNING or INTERRUPTED |
| Histories.BootRunsCancelled | internal/store/schema.go:447-522 | from the empty database: a run is cancelled while its step executes, the process crashes, the next one boots and claims the step, and it is RUNNING in a CANCELLED run |
| Bystanders.OpUndisturbed | internal/store/queries.go:1565-1867 | the operations that neither claim, revive nor journal leave every surviving step's attempts, waits and journal as they were, or end it |
| Claims.DueExactly | driver/driver.go:173-221 | a claim sees exactly the steps of its queue that are QUEUED and due, or SUSPENDED and past their resume time, with labels it covers, in no paused queue or run, below the limits of their keys, and after every earlier step of their sequence is over |
| Claims.BudgetIsLeft | internal/store/queries.go:1163-1257 | it may take the free slots or what the rate limit leaves of the window, whichever is less |
| Claims.BestFirst | internal/store/queries.go:1140-1152 | candidates come by higher priority, then earlier due time, then lower order, and a due step is left out only when the limit is reached by steps it does not go before |
| Claims.FirstIsClaimed | internal/store/queries.go:1195-1257 | a claim with a slot left and a step due claims the first in that order |
| Claims.AllClaimed | internal/store/queries.go:1195-1257 | candidates that no key limits are all claimed, in that order |
| Claims.ClaimedRows | internal/store/queries.go:1195-1257 | a claimed step is RUNNING under the claimer's worker, lease and time, with one attempt more if it was QUEUED and its wait cleared if it was SUSPENDED; every other row is as it was |
| Claims.ClaimedRuns | internal/store/queries.go:1195-1257 | a QUEUED run becomes RUNNING, with one attempt more, if and only if a QUEUED step of it was claimed |
| Caps.CapsAlways | driver/driver.go:173-221 | always: the i-th RUNNING holder of a concurrency key in claim order has a limit of at least i, for the step's own key and for every extra key, also within one batch |
| Caps.UniformCap | driver/driver.go:173-221 | always: a key whose holders all carry the limit L has at most L RUNNING |
| Rate.RateAlways | internal/store/queries.go:1163-1257 | always: with a fixed limit L and window W, every interval [t, t+W] with t > 0 holds at most L claim stamps of the queue's steps |
| Sequence.OrderAlways | internal/store/queries.go:245-254 | always, through retries, boots and unnumbered inserts that are in turn: numbers are handed out in increasing order and a step that started comes after every earlier step of its sequence finished |
| Sequence.EarlierStepsAreFinished | driver/driver.go:205-211 | always: a RUNNING step's sequence has no active step with a smaller number |
| Sequence.OneRunAtATime | driver/driver.go:205-211 | always: two RUNNING steps of one sequence belong to one run |
| Sequence.StartsFollowOrder | driver/driver.go:205-211 | always: first starts within a sequence follow the numbers |
| Sequence.Reordered | driver/driver.go:205-211 | an operation that keeps or clears start times keeps the order if and only if no step it brings back has been overtaken |
| Sequence.RetryInOrder | internal/store/queries.go:781-841 | a dead-letter retry keeps the order if and only if no later step of another run of a sequence has begun |
| Sequence.BootInOrder | internal/store/schema.go:447-522 | a boot keeps it if and only if nothing after an INTERRUPTED step it requeues has begun |
| Sequence.InsertUnnumbered | internal/store/queries.go:2147-2164 | inserting steps with a sequence key and no number keeps it if and only if nothing of those sequences has begun and no other run has unnumbered steps in them |
| Histories.RetryBreaksOrder | internal/store/queries.go:781-841 | from the empty database: the first run of a sequence fails, the second starts, the first is retried, and steps of both are RUNNING |
| Histories.BootBreaksOrder | internal/store/schema.go:447-522 | from the empty database: the first run of a sequence is interrupted, the second starts, and the boot queues the first behind it |
| Histories.UnnumberedBreaksOrder | internal/store/queries.go:245-254 | from the empty database: the keyed second step of a run that takes no number executes at the same time as an earlier run of the sequence |
| Unique.UniqueAlways | internal/store/queries.go:128-239 | always: at most one row holds a (workflow, unique key), and only a run that is not terminal holds one |
| Unique.ResolveNeverCollides | internal/store/queries.go:128-239 | an enqueue is refused exactly when the key is held and the caller asked for an error; the unique index never fires |
| Unique.EnqueueNeverCollides | internal/store/queries.go:128-239 | the same in every reachable database, numbering included |
| Batching.PlainInserts | internal/store/queries.go:128-239 | a run with neither a unique key nor a strategy is inserted as it is, so its insert may wait |
| Batching.ResolveAt | internal/store/queries.go:245-254 | handing out a batch's numbers at once changes no decision |
| Batching.EnqueueFrom | internal/store/queries.go:128-239 | one run of a batch, decided with numbers allocated ahead, is the run enqueued alone |
| Batching.Finish | internal/store/queries.go:128-239 | when the buffered inserts are flushed the table, ids and replacements are those of one-by-one enqueues |
| Batching.StaysFailed | internal/store/queries.go:128-239 | a refusal anywhere in the batch refuses the whole batch |
| Batching.OneOrder | internal/store/queries.go:354-432 | the live runs of a key have one order by number, so the strategy query has one answer |
| Batching.ApartAlways | internal/store/queries.go:245-254 | always: runs with a concurrency key have distinct numbers, none above the counter |
| Strategies.BySeqSorted | internal/store/queries.go:354-432 | the contenders of a key, picked oldest first, come out sorted by number and creation time |
| Strategies.KeepNewestQueued | internal/store/queries.go:354-432 | cancel-queued-except-newest picks queued runs only, the oldest of them, and exactly as many as exceed the limit |
| Strategies.KeepOldestQueued | internal/store/queries.go:354-432 | cancel-queued-except-oldest picks the newest queued runs, exactly as many as exceed the limit |
| Strategies.RunningGoFirst | internal/store/queries.go:354-432 | cancel-in-progress picks as many as exceed the limit, running runs first, the oldest first among each kind |
| Strategies.CancelAllContenders | internal/store/queries.go:317-347 | cancelling some contenders removes exactly them from the key's live runs and leaves the others' rows alone |
| Strategies.StrategyLeaves | internal/store/queries.go:354-432 | afterwards the key's live runs are the contenders less the victims, counted |
| Strategies.StrategyRespected | internal/store/queries.go:354-432 | an enqueue under a strategy leaves the key within what that strategy promises |
| Strategies.NewestIsIncoming | internal/store/queries.go:354-432 | in every reachable database: cancel-newest cancels the incoming run if and only if the limit was reached without it, and leaves every other contender's row as it was |
| Attempts.AttemptsAlways | internal/store/queries.go:1211-1254 | always, since enqueue or dead-letter reset: attempts are fresh claims less refunds, and retries stay below them |
| Attempts.RetriesEnd | internal/store/queries.go:1565-1583 | always: at most max_attempts - 1 retries whatever parks, pauses, suspensions and wakes interleave; attempts are at least 1 while RUNNING or SUSPENDED |
| Waits.WaitsAlways | internal/store/journal.go:112-233 | always, for executors that use the journal as durable calls do and dead-letter retries in time: the loaded copy lags behind only in undone waits, and no awake step has an undone wait still open |
| Waits.SuspendedWaitsAreBound | internal/store/journal.go:112-141 | always: a step SUSPENDED on an event has an undone entry for it, last in its journal, with the same deadline |
| Waits.NoLostWakeup | internal/store/journal.go:170-233 | always: after an event is delivered no live SUSPENDED step still waits for it |
| Waits.DecidedWaitsStay | internal/store/journal.go:155-233 | always: a done wait entry never changes, whether the event or the timeout decided it |
| Waits.RetryWaits | internal/store/queries.go:781-841 | a dead-letter retry keeps the wait invariant of a step of the run if and only if every wait in its journal is decided or overdue, and of any other step in any case |
| Waits.RetriesInTime | internal/store/queries.go:781-841 | over every history by the book: a retry keeps the invariant of all steps if and only if no journal of the run awaits an event that may still come |
| Waits.OpenClaimStrands | internal/store/journal.go:112-233 | in any legal history: a claim that loads an undecided wait that is not overdue can be followed by the event and a suspension by the book that leaves the step waiting for it with no entry to wake it |
| Waits.StrandedForGood | internal/store/journal.go:170-233 | such a step is bound to no entry, no delivery of the event changes it, and it resumes at its own deadline if it has one, otherwise never |
| Histories.RetryLosesWakeup | internal/store/queries.go:781-841 | from the empty database, with every executor by the book: a step of a live run ends SUSPENDED without deadline on a wait its journal holds as done |
| Waits.DeadLetterLosesWakeup | internal/store/queries.go:781-841 | after a dead-letter retry any step with an undecided wait in its journal that is not overdue, wherever it is and whatever its deadline, can be claimed and suspended on it after the event was delivered |
| Waits.WaitsAreNotResumed | internal/engine/durable.go:177-229 | always: an executor that runs never suspends again on an undone wait, for waits wake by event or past their deadline |
| Transitions.DeliverJournal | internal/store/journal.go:170-233 | a delivery completes the undone entries of its event and changes no other entry |
| Machine.BatchIsClaims | internal/store/queries.go:1076-1132 | a multi-queue claim is a legal run of single-queue claims at one instant, so every invariant holds throughout it |
| Enqueue.BuildRun | internal/engine/engine.go:1015-1106 | a request becomes a well-formed run exactly when it has steps, they form a valid DAG and each has a task definition; each refusal names its fault, the first missing definition included |
| Enqueue.VictimsDistinct | internal/store/queries.go:354-432 | no run is cancelled twice by one enqueue |
| Enqueue.BySeq | internal/store/queries.go:354-379 | lists each contender once |
| Effects.Requeued | internal/store/queries.go:1565-1583 | a RUNNING step is QUEUED with its attempt kept by a retry and given back by a park or a pause, for the time given or due as before |
| Effects.Stops | internal/store/queries.go:1665-1669 | a QUEUED, RUNNING or SUSPENDED step is CANCELLED and waits for nothing, any other is as it was |
| Effects.CompletedSteps | internal/store/queries.go:1384-1562 | the completed step is SUCCEEDED with its output, the steps it alone blocked are QUEUED for now, all others are as they were |
| Effects.CompletedReport | internal/store/queries.go:1384-1562 | the result names exactly the steps that were queued |
| Effects.CompletedRun | internal/store/queries.go:1441-1479 | the run's row is written if and only if the completion ended the run, with what the result reports |
| Effects.Fails | internal/store/queries.go:1587-1659 | the failed step, its cancelled siblings and the run's row, with the dead-letter mark only if asked |
| Effects.Pauses | internal/store/queries.go:1773-1816 | a live run that is not PAUSED becomes so, and no step row changes |
| Effects.Resumes | internal/store/queries.go:1821-1855 | a PAUSED run is QUEUED and due now with its QUEUED steps |
| Effects.Snoozes | internal/store/queries.go:1732-1767 | a live run of which no step is RUNNING is due at the given time with its QUEUED steps |
| Effects.StartsOver | internal/store/queries.go:781-841 | a retried dead letter: run and steps as they were enqueued, due now; journals kept |
| Effects.Dismisses | internal/store/queries.go:844-853 | a dead-letter mark is cleared and nothing else |
| Effects.Beats | internal/store/store.go:227-232 | the leases of exactly the worker's RUNNING steps move to the given time |
| Effects.Reaps | internal/store/store.go:237-263 | a reaped step was RUNNING in a live run on a lease that ran out, and is QUEUED now under no worker |
| Effects.Deletes | internal/store/queries.go:633-642 | a deletion takes the runs' rows, steps and journals, and changes no other |
| Effects.PurgesOnlyFinished | internal/store/queries.go:645-690 | a purge takes only runs that are over, have ended and execute nothing |
| Effects.Sweeps | internal/store/store.go:135-176 | the sweep of the whole process, row by row |
| Effects.WorkerSweepDeletes | internal/store/store.go:177-223 | the sweep of a worker deletes the ephemeral runs it executes |
| Effects.WorkerSweepsSteps | internal/store/store.go:177-223 | its RUNNING steps are INTERRUPTED under no worker |
| Effects.WorkerSweepsRuns | internal/store/store.go:177-223 | a RUNNING run it executed is INTERRUPTED if and only if nothing of it is active any more |
| Effects.Boots | internal/store/schema.go:447-522 | boot recovery row by row, keeping or failing interrupted work |
| Effects.Appends | internal/store/journal.go:74-81 | a journal slot is written once, behind the others |
| Effects.Suspends | internal/store/journal.go:98-141 | a suspension and its slot are written together or not at all |
| Effects.Decides | internal/store/journal.go:84-164 | a memoized result and a timeout change one slot, the latter only if it is not done |
| Effects.DeliversEntries | internal/store/journal.go:170-233 | a delivery writes the payload into every open wait for the event in a live run and marks it done, and changes nothing else of any entry |
| Effects.DeliversSteps | internal/store/journal.go:170-233 | it wakes exactly the SUSPENDED steps that own such an entry |
| Effects.Inserts | internal/store/queries.go:483-506 | an insert adds the run and its steps and changes no other row |
| Effects.Numbers | internal/store/queries.go:245-254 | a run with a sequence or concurrency key takes the next number, and its steps carry it |
| Effects.BuiltSteps | internal/engine/engine.go:1015-1106 | each step of a built run: due time, queue, priority, attempts, keys, limits and labels of the request and its definition |
| Effects.BuiltRuns | internal/engine/engine.go:1015-1106 | the run: due time, queue and keys |
| Stores.Store.CreateRuns | internal/store/queries.go:128-239 | the method with counted numbers and buffered inserts equals enqueuing the runs one by one, with ids, replacements and all-or-nothing failure |
| Stores.Store.InsertRuns | internal/store/queries.go:483-506 | inserting a batch of buffered runs equals inserting them in order |
| Stores.Store.ResolveRun | internal/store/queries.go:128-239 | the unique-key decision: reuse, error, replace or insert |
| Stores.Store.ApplyStrategy | internal/store/queries.go:354-432 | cancels exactly the strategy's victims, in order, and reports them |
| Stores.Store.ChooseVictims | internal/store/queries.go:380-419 | the three selection loops equal the victims' definition |
| Stores.Store.ListContenders | internal/store/queries.go:354-379 | the ordered listing of a key's live runs |
| Stores.Store.Candidates | internal/store/queries.go:1140-1152 | distinct due rows in claim order, none left out ahead of one taken |
| Stores.Store.Claim | internal/store/queries.go:1195-1257 | the claim loop tries each candidate against the rows as earlier claims left them |
| Stores.Store.ClaimQueue | internal/store/queries.go:1163-1257 | claims an answer to the query within the slots the rate window leaves; what that is in columns is Claims.BestFirst, Claims.BudgetIsLeft and Claims.ClaimedRows |
| Stores.Store.ClaimDueMulti | internal/store/queries.go:1076-1132 | queues are served in order, each seeing the claims before it |
| Stores.Store.UnblockReady | internal/store/queries.go:1485-1562 | queues exactly the BLOCKED direct dependents all of whose dependencies SUCCEEDED |
| Stores.Store.ConcludeRun | internal/store/queries.go:1441-1479 | ends the run when nothing is active, with a step of highest order's output |
| Stores.Store.CompleteStepTx | internal/store/queries.go:1384-1479 | the guarded completion with its one-step short path |
| Stores.Store.CompleteStep | internal/store/queries.go:1295-1314 | one completion in a transaction of its own |
| Stores.Store.CompleteSteps | internal/store/queries.go:1344-1379 | a batch is a chain of completions, committed whole or rolled back |
| Stores.Store.FinalFailStep | internal/store/queries.go:1587-1659 | fails the step, cancels its active siblings, fails or dead-letters the run, reports the cancelled |
| Stores.Store.RetryStep | internal/store/queries.go:1565-1569 | requeues only a RUNNING step, keeping its attempts |
| Stores.Store.ParkStep | internal/store/queries.go:1576-1583 | requeues with the attempt given back and the claim stamp cleared |
| Stores.Store.StepCancelled | internal/store/queries.go:1665-1669 | cancels a QUEUED, RUNNING or SUSPENDED step |
| Stores.Store.RequeuePausedStep | internal/store/queries.go:1860-1867 | requeues an interrupted step with its attempt and lease given back |
| Stores.Store.CancelRow | internal/store/queries.go:273-312 | the two forms of cancelling a run's row and steps, sparing RUNNING steps or not; column by column, Cancellations.CancelStops and Cancellations.ReplacedHalts |
| Stores.Store.CancelOrDelete | internal/store/queries.go:317-347 | an ephemeral run is deleted instead, unless a step of it is RUNNING |
| Stores.Store.CancelRun | internal/store/queries.go:1675-1725 | cancels a live run, refuses a terminal or unknown one |
| Stores.Store.PauseRun | internal/store/queries.go:1773-1816 | pauses a live run once |
| Stores.Store.ResumeRun | internal/store/queries.go:1821-1855 | returns a paused run and its QUEUED steps to now |
| Stores.Store.Snooze | internal/store/queries.go:1732-1767 | moves the start of a run with no RUNNING step |
| Stores.Store.RetryDeadLetter | internal/store/queries.go:781-841 | reopens a dead-lettered run: every step starts over, BLOCKED if it has dependencies and QUEUED otherwise, and refuses any other run |
| Stores.Store.DismissDeadLetter | internal/store/queries.go:844-853 | clears the marker if there is one |
| Stores.Store.PauseQueue | internal/store/queries.go:1009-1013 | the queue is paused for every claim from then on |
| Stores.Store.ResumeQueue | internal/store/queries.go:1017-1020 | and no longer |
| Stores.Store.SuspendWithJournal | internal/store/journal.go:117-141 | records the await and the suspension together, or neither |
| Stores.Store.SuspendStep | internal/store/journal.go:98-110 | suspends only a RUNNING step |
| Stores.Store.AppendJournal | internal/store/journal.go:74-81 | a slot is written once |
| Stores.Store.CompleteJournalOnce | internal/store/journal.go:84-89 | memoizes a RunOnce result |
| Stores.Store.TimeoutWait | internal/store/journal.go:156-164 | of a timeout and an event on one wait, the first wins |
| Stores.Store.DeliverEvent | internal/store/journal.go:170-233 | the loop over waiting entries completes all of them and wakes exactly their suspended steps; column by column, Effects.DeliversEntries and Effects.DeliversSteps |
| Stores.AllDelivered | internal/store/journal.go:170-233 | completing the listed entries one by one is the delivery |
| Stores.AllWoken | internal/store/journal.go:193-233 | the owners of completed entries are the steps to wake |
| Stores.Store.InterruptAll | internal/store/store.go:135-223 | the full shutdown sweep |
| Stores.Store.InterruptWorker | internal/store/store.go:177-223 | the sweep of one worker's leases |
| Stores.Store.HeartbeatWorker | internal/store/store.go:227-232 | extends exactly the worker's RUNNING steps |
| Stores.Store.ReapExpired | internal/store/store.go:237-263 | requeues expired steps of live runs, all of them if they fit the limit |
| Stores.Store.RecoverInterrupted | internal/store/schema.go:447-522 | boot recovery, keeping or failing interrupted work |
| Executors.EndIsEnabled | internal/engine/engine.go:1493-1575 | whatever ended the body, the transaction the executor picks is one its caller's duties allow: retries only with attempts left, cancellation only of steps of ended runs |
| Executors.StartIsEnabled | internal/engine/engine.go:1400-1456 | the same for a claim given up before the body starts |
| Executors.ClaimEnds | internal/engine/engine.go:1513-1600 | an erroring or vetoed claim is over: retried with its attempt kept, refunded after a pause, cancelled with its run, or final, failing the run and marking it a dead letter only if asked |
| Executors.ReturnIsKept | internal/engine/engine.go:1493-1575 | a returned value goes to the completer unchanged, and its completion writes it into the step's row if the run is live and cancels the step if not |
| Executors.UnwindLeaves | internal/engine/engine.go:1487-1512 | a suspended step stays so unless its run is over, when it is CANCELLED |
| Executors.StartLeaves | internal/engine/engine.go:1400-1456 | an unregistered task is parked for five seconds, a stopped one CANCELLED, a paused one requeued with its attempt back, and every other starts |
| Executors.LateReturn | internal/engine/engine.go:1515-1575 | when the run is cancelled after the status was read, the step ends QUEUED in a CANCELLED run if and only if the verdict was a retry or a pause requeue |
| Executors.LateReturnExecutes | internal/engine/engine.go:1515-1575 | after either verdict such a step can be claimed again exactly when the key, sequence and queue gates allow; the run's end does not stop it |
| Executors.NoInterruptLost | internal/engine/engine.go:1413-1434 | in any order of cancellations, registrations and ends: a step somebody interrupted has an executor that was told, or a tombstone waiting for it, and no other step has |
| Executors.Executor.CancelStepContexts | internal/engine/engine.go:1604-1621 | cancels registered contexts and leaves tombstones for the others |
| Executors.Executor.Begin | internal/engine/engine.go:1384-1456 | parks, stops, requeues or starts, consuming the tombstone and at most the pause mark |
| Executors.Executor.End | internal/engine/engine.go:1487-1575 | the database moves by the executor's verdict and nothing else; a value goes to the completer |
| Executors.Executor.RecordFinalFailure | internal/engine/engine.go:1579-1600 | fails the step and tells the executors of exactly the cancelled siblings |
| Replay.AlignedExactlyWhenConsistent | internal/engine/durable.go:44-55 | a body never meets another call's entry, in whatever order things happen, if and only if its calls do not depend on whether a RunOnce failed or succeeded, except that it may return |
| Replay.ReplaySoundness | internal/engine/durable.go:44-229 | over any suspensions, retries, wakes and restarts, two invocations that get past a journal slot get the same answer there |
| Replay.Always | internal/engine/durable.go:44-229 | the invariant behind it: every row was recorded by a call of the body, a body gets past no open await, and an executor's answers are those its rows stand by |
| Replay.ConsistentNeverMisaligns | internal/engine/durable.go:44-55 | a replay never meets an entry of another call |
| Replay.SettledForever | internal/engine/durable.go:44-229 | a row the body got past never changes again |
| Replay.MemoizedIsFinal | internal/engine/durable.go:118-159 | once a RunOnce result is memoized its function is not called again at that slot |
| Replay.SleepsLongEnough | internal/engine/durable.go:71-103 | SleepDurable returns only when the duration asked for by its first call has passed since then |
| Replay.SleepsAsAsked | internal/engine/durable.go:71-103 | which is the duration the replaying call asks for, if durations do not depend on failures either |
| Replay.WaitsLongEnough | internal/engine/durable.go:177-229 | WaitFor times out only if its first call gave a timeout, and only when that has passed since then |
| Replay.WakesWhenDue | internal/engine/durable.go:71-229 | a suspended step can be claimed again exactly from the end of its sleep, or of its wait's timeout if it has one, counted from the call that began it |
| Replay.WaitsForTheEvent | internal/engine/durable.go:177-229 | the payload WaitFor returned was emitted with that event while its row was recorded and open |
| Replay.ReturnsTheResult | internal/engine/durable.go:118-159 | the value RunOnce returned is what its function returned when it was called for that slot |
| Replay.WaitAnswersAgree | internal/engine/durable.go:177-242 | the result WaitFor returned is the one its row records, also when Emit and the timeout race |
| Replay.GivingUpIsConsistent | internal/engine/durable.go:118-159 | a body that returns at the first error meets the condition |
| Replay.ObliviousIsConsistent | internal/engine/durable.go:118-159 | so does one whose calls do not look at what RunOnce returned |
| Replay.SagaIsConsistent | website/content/use-cases.md:84-88 | the documented body that ignores the error of its charge, sleeps and waits meets it without giving up |
| Replay.StubbornMisaligns | internal/engine/durable.go:118-159 | a body that sleeps only after a RunOnce error does not, and is refused at replay |
| StepStates.StepState.TakeEntry | internal/engine/durable.go:44-55 | hands out slots in call order and checks the kind |
| StepStates.StepState.Sleep | internal/engine/durable.go:71-103 | the method that writes through to the store is the sleep call of the replay theorem and touches no other step |
| StepStates.StepState.RunOnce | internal/engine/durable.go:118-159 | likewise for RunOnce |
| StepStates.StepState.WaitFor | internal/engine/durable.go:177-229 | likewise for WaitFor |
| Discipline.SuspensionsByTheBook | internal/engine/durable.go:71-229 | every suspension of a body that meets the condition records a new await behind nothing but decided waits, or resumes one it loaded |
| Discipline.TimeoutsByTheBook | internal/engine/durable.go:195-229 | a timeout is claimed only on a loaded, undone, overdue wait |
| Driving.DrivenIsDisciplined | internal/engine/durable.go:44-229 | executors of any number of steps, among all other operations and as long as no call meets another call's entry, drive exactly the kind of history the theorems on waits are about, and each is past every wait behind it |
| Driving.CallCommits | internal/engine/durable.go:71-229 | the transactions a call commits, applied to the store and to the executor's loaded journal, leave the session the call leaves |
| Driving.CallsByTheBook | internal/engine/durable.go:71-229 | and each of them, appends and memoized results included, is what the store's wait invariant asks of executors |
| Completers.ExactlyOnce | internal/engine/completer.go:19-99 | in every interleaving each submission is in exactly one place (one still writing through is in no list), and the loop hands them over in the order they were appended |
| Completers.DoneMeansDrained | internal/engine/completer.go:55-66 | once the done channel is closed nothing is pending or in hand |
| Completers.NoLostWake | internal/engine/completer.go:19-51 | a parked loop with no buffered wake and no submitter about to send has nothing pending |
| Completers.LoopCanMove | internal/engine/completer.go:37-99 | the loop is never stuck |
| Completers.LateSubmitsWriteThrough | internal/engine/completer.go:19-32 | a submission after the stop writes through |
| Completers.Completer.Append | internal/engine/completer.go:19-32 | the step under the mutex: append or be turned away |
| Completers.Completer.TakeBatch | internal/engine/completer.go:71-79 | takes the whole list in one step |
| Completers.Completer.StopCompleter | internal/engine/completer.go:55-66 | closes the stop channel once |
| Dag.ValidateDAG | internal/engine/dag.go:7-51 | accepts exactly when names are non-empty and unique, dependencies exist and the graph is acyclic, duplicates included; each refusal names a real fault |
| Dag.Visit | internal/engine/dag.go:29-51 | Kahn's loop visits all steps exactly when there is a ranking, and yields it |
| Dag.AcyclicIffRanked | internal/engine/dag.go:7-51 | no walk returns to its start exactly when steps can be ranked by their dependencies |
| Dag.UnvisitedTrapped | internal/engine/dag.go:29-51 | steps Kahn's loop never reaches depend on one another in a cycle |
| Groups.NewGroupWorkflow | workflow.go:66-99 | the loops build the expansion of the groups |
| Groups.DedupOnce | runtree.go:147-161 | expanded dependencies are listed once each, in the order they first occur |
| Groups.GroupAcceptance | workflow.go:66-99 | the expansion is accepted exactly when the groups wait on each other without a cycle and each group is acyclic |
| Groups.GroupOrder | workflow.go:66-99 | every member of a group depends, through the expansion, on every member of each group it transitively follows |
| ShortestPaths.NoCheaperWalk | dag_route.go:120-166 | with lazy deletion: no walk is cheaper than both its end's recorded distance and everything still queued |
| ShortestPaths.AllReached | dag_route.go:120-166 | with nothing queued, every node a walk leads to has been reached |
| ShortestPaths.Settle | dag_route.go:120-166 | popping a current entry settles its node for good |
| Router.RouteEdge | dag_route.go:42-184 | there is a route exactly when x1 < x2 and some right-angle line with its corners on the grid lines leaves and arrives heading right and enters no obstacle; it runs from port to port, enters no obstacle, and its points cost no more than any such line, in length plus 24 a bend |
| Router.BestRoute | dag_route.go:42-201 | the walk the search ends with is one of those lines, and drawing it without its collinear points keeps that |
| Router.CostIsLengthAndBends | dag_route.go:133-166 | the sum of a walk's edge weights is the length of its points plus 24 for each at which the direction changes |
| Router.RouteIsWalk | dag_route.go:133-166 | every such line, in any of the four directions, is a walk of the search at the same cost |
| Router.SimplifiedIsCheaper | dag_route.go:187-201 | dropping collinear points keeps the ends and adds neither length nor bends, turns on the spot included |
| Routes.EntersAtPoint | dag_route.go:84-119 | a segment crosses an obstacle exactly when a point of it is inside, for obstacles that have an inside |
| Routes.Detour | dag_route.go:18-20 | the outer border connects any two ports that can get out of their corridor and up along a grid line |
| Routes.PortsAreFree | dag_route.go:88-119 | a route has both ports outside of all obstacles |
| Router.RouteIsFree | dag_route.go:187-201 | dropping collinear points keeps every segment out of every obstacle |
| Router.Explore | dag_route.go:120-166 | the loop ends and its tables hold the distances and the walks |
| Router.Trace | dag_route.go:172-178 | following the predecessor table ends and spells the recorded walk |
| Router.UniqSortedFloat | dag_route.go:241-250 | strictly increasing, with exactly the given values |
| Router.SimplifyRoute | dag_route.go:187-201 | keeps the points where the direction changes |
| Router.SimplifiedAreCorners | dag_route.go:187-201 | of a route that never turns back exactly the ends and the points where the direction changes are kept |
| Layout.Levels | dag_svg.go:182-202 | when the links are acyclic every link goes to a strictly higher level, and no unit is higher than a link into it demands |
| Layout.PlaceUnits | dag_svg.go:204-262 | columns and stacks of a layout placement |
| Layout.UnitsApart | dag_svg.go:204-262 | units of a placement do not overlap |
| Layout.UnitInside | dag_svg.go:204-262 | and lie inside the content box |
| Layout.UnitsLeftToRight | dag_svg.go:204-262 | and a unit of a lower level ends left of one of a higher level |
| Layout.ColumnIsCentered | dag_svg.go:219-262 | a column is as wide as its widest unit and its units are centered in it |
| Layout.StackIsCentered | dag_svg.go:219-262 | units of a column are a gap apart, and the stack is in the middle of the content's height |
| Layout.ContentIsSnug | dag_svg.go:219-262 | units touch all four sides of the content |
| Boxes.BuildOwners | dag_svg.go:121-139 | every node of the subtree maps to the unit that stands for it |
| Boxes.LiftLinks | dag_svg.go:141-180 | edges and group dependencies between units, without loops; every edge between two different units is a link |
| Boxes.LayoutCluster | dag_svg.go:98-275 | children first, then units apart and inside; at every depth the box is exactly its units and the frame around them |
| Boxes.Absolutize | dag_svg.go:279-290 | the recursion draws every node and box at its offset |
| Boxes.DrawDraws | dag_svg.go:279-290 | later siblings do not overwrite what earlier ones drew |
| Boxes.DrawingIsNested | dag_svg.go:98-290 | after absolutizing: siblings apart, members inside their own box, acyclic unit graphs strictly left to right, at every depth; and in each such cluster an edge's source node is drawn wholly left of its target |
| Boxes.EdgesGoRight | dag_svg.go:98-290 | when no cluster has a cycle of units, every given edge between two nodes of the drawing goes from left to right |
| Boxes.LayoutDAG | dag_svg.go:57-64 | layout and drawing of a tree of clusters |
| Clusters.TreeIsDistinct | dag_svg.go:68-93 | a forest of groups with distinct names becomes a tree in which every name has one place |
| Clusters.TreeIsWhole | dag_svg.go:68-93 | all nodes and groups are in the tree and nothing else is |
| Clusters.BuildClusters | dag_svg.go:68-93 | the loops list each cluster's children, members and dependencies, with orphans at the root |
| Clusters.Assemble | dag_svg.go:68-93 | the pointers of the tables spell the tree |
| Clusters.LayoutFlat | dag_svg.go:57-93 | from the flat lists to a properly nested drawing of all of them, with the edges from left to right |
| Rebind.RebindQuery | postgres/postgres.go:176-226 | the copying loops compute the rewriting |
| Rebind.OnlyPlaceholdersChange | postgres/postgres.go:176-226 | the rewritten query is the query's tokens with only the placeholders replaced |
| Rebind.ReboundIsRewritten | postgres/postgres.go:176-226 | the token-wise rewriting is the byte-wise one: exactly the '?' outside literals, quoted identifiers and line comments are replaced |
| Rebind.NumberedInOrder | postgres/postgres.go:176-226 | the i-th placeholder becomes '$' and i |
| Rebind.RebindRoundTrip | postgres/postgres.go:176-226 | a query with no '$' outside quotes and comments is recovered from its rewriting |
| Rebind.Itoa | postgres/postgres.go:228-240 | the eight-byte buffer holds the decimal digits of every number below 10^8 |

## Left out

- Cron: parsing and firing; what an insert without a number does to a sequence is `Sequence.InsertUnnumbered`.
- Logs, metrics, traces, the event bus, hooks and middleware, encryption and JSON codecs.
- Multi-row INSERT statements are inserts of one row after another.
- SQL text, drivers, pools, migrations, locks and isolation levels; backends differ only there.
- Purge paging and retention rules: a purge is the deletion of any set of runs it may delete.
- Columns no transaction reads (update and completion times of steps, inputs, timeouts, parent runs).
- The scheduler's sleeping and pacing, and per-queue slot counting in memory; a claim may ask for any limit.
- Real time and floating-point rounding: timestamps are integers and coordinates are real numbers.
- Timeouts of step contexts, backoff jitter and the effects of step bodies outside the journal.
- Executors that outlive their lease, in `Executor.dfy` and `Driving.dfy`: each claim has one executor there, which reports once. In the store's histories any report may come at any time.
- Driving.DrivenIsDisciplined: that a call does not meet another call's entry is a condition there; Replay proves it for one step's life, from the enqueue on and without dead-letter retries. It covers executors that append nothing after a refused await.
- Batching.ApartAlways: runs that FireCron inserts (internal/store/queries.go:2147-2164) carry the number 0 whatever their concurrency key, and it is no operation of the machine.
- Replay.ReplaySoundness: a deleted run's journal is gone, so deletion while a body executes is modelled only up to the refusal of its writes.
- Stores.Store.AppendJournal: an index beyond the end of the journal is refused, where the table accepts the gap. A body that ignores a WaitFor or SleepDurable whose row the store refused, and calls on, writes such an index.
- StepStates.StepState.RunOnce: after such a refusal the source appends past the gap and invokes its function; the model refuses the call without invoking it.
- Executors.Executor.End: the three parts of an execution are atomic methods; what interleaves between the status read and the transaction is covered by Executors.LateReturn only for cancellation.
- Step ids are pairs of a run id and a step name, not their concatenation.
- container/heap and sort.Float64s are replaced by simple methods that keep their contracts.
- Clusters.LayoutFlat: groups whose parents form a cycle, which the code drops from the drawing, are excluded; a missing or self-referential parent is not.
- Layout trees are values; the cluster objects' fields are tables built by the same loops.
- Colours, labels, legends and SVG text.
