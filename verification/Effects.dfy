// What each transaction leaves in the tables, column by column, for the transactions
// whose functions say it only through other functions. Cancellations are in
// Cancellations.dfy and claims in Claims.dfy.

module Effects {
  import opened Names
  import opened Schema
  import opened Transitions
  import opened Enqueue
  import opened Dag
  import opened Machine

  // Only step rows change, and no row comes or goes.
  ghost predicate StepsOnly(db: Db, db1: Db) {
    db1.steps.Keys == db.steps.Keys && db1.runs == db.runs && db1.journal == db.journal && db1.next == db.next && db1.pausedQueues == db.pausedQueues
  }

  // Only the step's row changes.
  ghost predicate RowOnly(db: Db, db1: Db, id: StepId) {
    StepsOnly(db, db1) && forall j | j in db.steps && j != id :: db1.steps[j] == db.steps[j]
  }

  // Only the step's journal changes.
  ghost predicate JournalOnly(db: Db, db1: Db, id: StepId) {
    && db1.steps == db.steps && db1.runs == db.runs && db1.next == db.next && db1.pausedQueues == db.pausedQueues
    && forall j | j != id :: Journal(db1, j) == Journal(db, j)
  }

  // ---- one step -----------------------------------------------------------------------------

  // A retry keeps the attempt, a park and a pause give it back; a RUNNING step is QUEUED
  // in each case, for the given time or for when it was due before.
  lemma Requeued(db: Db, id: StepId, error: Str, at: int)
    requires id in db.steps
    ensures var s := db.steps[id];
      var s1, s2, s3 := RetryStep(db, id, error, at).steps[id], ParkStep(db, id, error, at).steps[id], RequeuePausedStep(db, id).steps[id];
      var refunded := if s.attempts > 0 then s.attempts - 1 else s.attempts;
      if s.status.Running? then
        && s1 == s.(status := Queued, error := error, runAt := at)
        && s2 == s.(status := Queued, error := error, runAt := at, claimedAt := 0, attempts := refunded)
        && s3 == s.(status := Queued, claimedAt := 0, worker := Empty, lease := 0, attempts := refunded)
      else s1 == s2 == s3 == s
    ensures RowOnly(db, RetryStep(db, id, error, at), id) && RowOnly(db, ParkStep(db, id, error, at), id)
    ensures RowOnly(db, RequeuePausedStep(db, id), id)
  {
  }

  // A stopped step is CANCELLED and waits for nothing, unless it was over or BLOCKED.
  lemma Stops(db: Db, id: StepId)
    requires id in db.steps
    ensures var s, db1 := db.steps[id], StepCancelled(db, id);
      && RowOnly(db, db1, id)
      && db1.steps[id] ==
           if s.status.Queued? || s.status.Running? || s.status.Suspended? then s.(status := Cancelled, resumeAt := 0, wait := NoWait) else s
  {
  }

  // ---- completion and failure ---------------------------------------------------------------

  // The step is BLOCKED by the other alone: its other dependencies are all SUCCEEDED.
  predicate BlockedBy(steps: map<StepId, Step>, j: StepId, id: StepId) {
    && j in steps && j.run == id.run && steps[j].status.Blocked? && id.name in steps[j].deps
    && forall d | d in steps[j].deps && d != id.name :: StepId(j.run, d) in steps && steps[StepId(j.run, d)].status.Succeeded?
  }

  lemma BlockedIsReady(steps: map<StepId, Step>, j: StepId, id: StepId, output: Str)
    requires id in steps && j != id
    ensures j.run == id.run && j.name in Unblocked(SucceedStep(steps, id, output), id.run, id.name) && j in steps <==> BlockedBy(steps, j, id)
  {
    var steps1 := SucceedStep(steps, id, output);
    if BlockedBy(steps, j, id) {
      assert DepsSucceeded(steps1, j);
      assert j.name in Unblocked(steps1, id.run, id.name);
    }
  }

  lemma AloneInRun(steps: map<StepId, Step>, id: StepId)
    requires id in steps && |StepsOf(steps, id.run)| == 1
    ensures forall j | j in steps && j.run == id.run :: j == id
  {
    var others := StepsOf(steps, id.run) - {id};
    assert id in StepsOf(steps, id.run) && |others| == 0;
    forall j | j in steps && j.run == id.run ensures j == id {
      assert j !in others;
    }
  }

  // The step is SUCCEEDED with its output, the steps it alone blocked are QUEUED for
  // now, and the other steps of all runs are as they were.
  ghost predicate StepCompleted(db: Db, db1: Db, id: StepId, output: Str, now: int)
    requires id in db.steps
  {
    && db1.steps.Keys == db.steps.Keys && db1.journal == db.journal
    && db1.steps[id] == db.steps[id].(status := Succeeded, output := output, error := Empty)
    && forall j | j in db.steps && j != id ::
         db1.steps[j] == if BlockedBy(db.steps, j, id) then db.steps[j].(status := Queued, runAt := now) else db.steps[j]
  }

  lemma LoneStepCompleted(db: Db, id: StepId, output: Str, now: int)
    requires Live(db, id.run) && !db.runs[id.run].ephemeral && id in db.steps && (db.steps[id].status.Queued? || db.steps[id].status.Running?)
    requires |StepsOf(db.steps, id.run)| == 1
    ensures StepCompleted(db, CompleteStep(db, id, output, now).value.0, id, output, now)
  {
    AloneInRun(db.steps, id);
  }

  lemma CompletedSteps(db: Db, id: StepId, output: Str, now: int)
    requires Live(db, id.run) && !db.runs[id.run].ephemeral && id in db.steps && (db.steps[id].status.Queued? || db.steps[id].status.Running?)
    ensures StepCompleted(db, CompleteStep(db, id, output, now).value.0, id, output, now)
  {
    if |StepsOf(db.steps, id.run)| == 1 {
      LoneStepCompleted(db, id, output, now);
    } else {
      var steps1 := SucceedStep(db.steps, id, output);
      var steps2 := QueueSteps(steps1, id.run, Unblocked(steps1, id.run, id.name), now);
      assert CompleteStep(db, id, output, now).value.0.steps == steps2;
      forall j | j in db.steps && j != id
        ensures steps2[j] == if BlockedBy(db.steps, j, id) then db.steps[j].(status := Queued, runAt := now) else db.steps[j]
      {
        BlockedIsReady(db.steps, j, id, output);
      }
    }
  }

  // The completion reports the steps it unblocked.
  lemma CompletedReport(db: Db, id: StepId, output: Str, now: int)
    requires Live(db, id.run) && id in db.steps && (db.steps[id].status.Queued? || db.steps[id].status.Running?)
    ensures var result := CompleteStep(db, id, output, now).value.1;
      result.stepDone && result.cancelled == {} && forall j | j in db.steps && j.run == id.run :: j.name in result.ready <==> BlockedBy(db.steps, j, id)
  {
    if |StepsOf(db.steps, id.run)| == 1 {
      AloneInRun(db.steps, id);
    } else {
      forall j | j in db.steps && j.run == id.run && j != id
        ensures j.name in Unblocked(SucceedStep(db.steps, id, output), id.run, id.name) <==> BlockedBy(db.steps, j, id)
      {
        BlockedIsReady(db.steps, j, id, output);
      }
    }
  }

  // The run's own row when nothing of it is active any more, and otherwise.
  lemma CompletedRun(db: Db, id: StepId, output: Str, now: int)
    requires Live(db, id.run) && !db.runs[id.run].ephemeral && id in db.steps && (db.steps[id].status.Queued? || db.steps[id].status.Running?)
    ensures var (db1, result) := CompleteStep(db, id, output, now).value;
      && db1.runs.Keys == db.runs.Keys && (forall r | r in db.runs && r != id.run :: db1.runs[r] == db.runs[r])
      && db1.runs[id.run] ==
           if result.runTerminal then
             db.runs[id.run].(status := result.runStatus, output := result.runOutput, error := result.runError, completedAt := now, uniqueKey := Empty)
           else db.runs[id.run]
  {
  }

  // The step is FAILED with its error, whatever it was, and the active steps beside it
  // are CANCELLED; the run is FAILED, unless it was over.
  lemma Fails(db: Db, id: StepId, error: Str, deadLetter: bool, now: int)
    requires id.run in db.runs && !db.runs[id.run].ephemeral
    ensures var db1, r := FinalFail(db, id, error, deadLetter, now), db.runs[id.run];
      && db1.steps.Keys == db.steps.Keys && db1.journal == db.journal && db1.runs.Keys == db.runs.Keys
      && (forall j | j in db.steps ::
            var s := db.steps[j];
            db1.steps[j] ==
              if j == id then s.(status := Failed, error := error)
              else if j.run == id.run && (s.status.Queued? || s.status.Running? || s.status.Blocked? || s.status.Suspended?) then
                s.(status := Cancelled)
              else s)
      && (forall x | x in db.runs && x != id.run :: db1.runs[x] == db.runs[x])
      && db1.runs[id.run] ==
           if r.status.Succeeded? || r.status.Failed? || r.status.Cancelled? || r.status.Interrupted? then r
           else r.(status := Failed, error := error, completedAt := now, uniqueKey := Empty, deadAt := if deadLetter then now else r.deadAt)
  {
  }

  // ---- pausing, snoozing, dead letters ------------------------------------------------------

  // The QUEUED steps of the run are due at another time.
  ghost predicate QueuedFor(db: Db, db1: Db, run: Str, at: int) {
    && db1.steps.Keys == db.steps.Keys
    && forall j | j in db.steps ::
         db1.steps[j] == if j.run == run && db.steps[j].status.Queued? then db.steps[j].(runAt := at) else db.steps[j]
  }

  ghost predicate RunOnly(db: Db, db1: Db, run: Str) {
    && db1.runs.Keys == db.runs.Keys && (forall r | r in db.runs && r != run :: db1.runs[r] == db.runs[r])
    && db1.journal == db.journal && db1.next == db.next && db1.pausedQueues == db.pausedQueues
  }

  lemma Pauses(db: Db, run: Str, now: int)
    requires run in db.runs
    ensures var r, db1 := db.runs[run], PauseRun(db, run, now);
      && RunOnly(db, db1, run) && db1.steps == db.steps
      && db1.runs[run] == if !IsTerminal(r.status) && !r.status.Paused? then r.(status := Paused, pausedAt := now) else r
  {
  }

  lemma Resumes(db: Db, run: Str, now: int)
    requires run in db.runs
    ensures var r, db1 := db.runs[run], ResumeRun(db, run, now);
      && RunOnly(db, db1, run)
      && if r.status.Paused? then db1.runs[run] == r.(status := Queued, runAt := now, pausedAt := 0) && QueuedFor(db, db1, run, now)
         else db1 == db
  {
  }

  lemma Snoozes(db: Db, run: Str, until: int)
    requires run in db.runs
    ensures var r, db1 := db.runs[run], Snooze(db, run, until);
      && RunOnly(db, db1, run)
      && if !IsTerminal(r.status) && forall id | id in db.steps && id.run == run :: !db.steps[id].status.Running? then
           db1.runs[run] == r.(runAt := until) && QueuedFor(db, db1, run, until)
         else db1 == db
  {
  }

  // Only a FAILED run marked as a dead letter starts over; its steps are as they were
  // enqueued, due now, and its journals are kept.
  lemma StartsOver(db: Db, run: Str, now: int)
    requires run in db.runs
    ensures var r, db1 := db.runs[run], RetryDeadLetter(db, run, now);
      && RunOnly(db, db1, run) && db1.steps.Keys == db.steps.Keys
      && if r.status.Failed? && r.deadAt != 0 then
           && db1.runs[run] == r.(status := Queued, attempts := 0, error := Empty, output := Empty, startedAt := 0, completedAt := 0,
                                  runAt := now, deadAt := 0)
           && forall j | j in db.steps ::
                var s := db.steps[j];
                db1.steps[j] ==
                  if j.run == run then
                    s.(status := if s.deps == [] then Queued else Blocked, attempts := 0, error := Empty, output := Empty, startedAt := 0,
                       claimedAt := 0, worker := Empty, lease := 0, resumeAt := 0, wait := NoWait, runAt := now)
                  else s
         else db1 == db
  {
  }

  lemma Dismisses(db: Db, run: Str)
    requires run in db.runs
    ensures var r, db1 := db.runs[run], DismissDeadLetter(db, run);
      RunOnly(db, db1, run) && db1.steps == db.steps && db1.runs[run] == if r.deadAt > 0 then r.(deadAt := 0) else r
  {
  }

  // ---- leases, shutdown and boot ------------------------------------------------------------

  // A heartbeat moves the leases of the steps the worker executes, and no others.
  lemma Beats(db: Db, worker: Str, until: int)
    ensures var db1 := Heartbeat(db, worker, until);
      && StepsOnly(db, db1)
      && forall j | j in db.steps ::
           var s := db.steps[j];
           db1.steps[j] == if s.worker == worker && s.status.Running? then s.(lease := until) else s
  {
  }

  // A reaped step was RUNNING in a live run with a lease that has run out; it is QUEUED
  // for now under no worker.
  lemma Reaps(db: Db, ids: set<StepId>, now: int)
    ensures var db1 := Reap(db, ids, now);
      && StepsOnly(db, db1)
      && forall j | j in db.steps ::
           var s := db.steps[j];
           db1.steps[j] ==
             if j in ids && s.status.Running? && 0 < s.lease && s.lease < now && j.run in db.runs && !IsTerminal(db.runs[j.run].status) then
               s.(status := Queued, runAt := now, worker := Empty, lease := 0)
             else s
  {
  }

  ghost predicate RunsGone(db: Db, db1: Db, gone: set<Str>) {
    && (forall r :: r in db1.runs <==> r in db.runs && r !in gone)
    && (forall id :: id in db1.steps <==> id in db.steps && id.run !in gone)
    && (forall id :: Journal(db1, id) == if id.run in gone then [] else Journal(db, id))
    && db1.next == db.next && db1.pausedQueues == db.pausedQueues
  }

  lemma Deletes(db: Db, ids: set<Str>)
    ensures var db1 := DeleteRuns(db, ids);
      && RunsGone(db, db1, ids)
      && (forall r | r in db1.runs :: db1.runs[r] == db.runs[r]) && forall id | id in db1.steps :: db1.steps[id] == db.steps[id]
  {
  }

  // A purge takes only runs that are over, have ended and execute nothing.
  lemma PurgesOnlyFinished(db: Db, runIds: set<Str>, now: int, r: Str)
    requires Enabled(db, RunsPurged(runIds, now)) && r in runIds
    ensures r in db.runs && db.runs[r].completedAt > 0
    ensures var s := db.runs[r].status; s.Succeeded? || s.Failed? || s.Cancelled? || s.Interrupted?
    ensures forall id | id in db.steps && id.run == r :: !db.steps[id].status.Running?
  {
  }

  // The sweep of the whole process: RUNNING is INTERRUPTED, and ephemeral runs that
  // execute go.
  lemma Sweeps(db: Db, now: int)
    ensures var db1, gone := InterruptAll(db, now), set r | r in db.runs && db.runs[r].status.Running? && db.runs[r].ephemeral;
      && RunsGone(db, db1, gone)
      && (forall id | id in db1.steps ::
            db1.steps[id] == if db.steps[id].status.Running? then db.steps[id].(status := Status.Interrupted) else db.steps[id])
      && forall r | r in db1.runs ::
           db1.runs[r] ==
             if db.runs[r].status.Running? then db.runs[r].(status := Status.Interrupted, completedAt := now, uniqueKey := Empty) else db.runs[r]
  {
  }

  // The worker executes a step of the run.
  predicate Executes(db: Db, worker: Str, run: Str) {
    exists id :: id in db.steps && id.run == run && db.steps[id].status.Running? && db.steps[id].worker == worker
  }

  lemma WorkerDeletes(db: Db, worker: Str, now: int, gone: set<Str>)
    requires gone == set r | r in RunsOfWorker(db, worker) && db.runs[r].ephemeral
    ensures RunsGone(db, InterruptWorker(db, worker, now), gone)
  {
    Deletes(db, gone);
  }

  // The sweep of one worker: the ephemeral runs it executes go.
  lemma WorkerSweepDeletes(db: Db, worker: Str, now: int, gone: set<Str>)
    requires gone == set r | r in db.runs && Executes(db, worker, r) && db.runs[r].ephemeral
    ensures RunsGone(db, InterruptWorker(db, worker, now), gone)
  {
    assert gone == set r | r in RunsOfWorker(db, worker) && db.runs[r].ephemeral;
    WorkerDeletes(db, worker, now, gone);
  }

  // Its steps are INTERRUPTED under no worker.
  lemma WorkerSweepsSteps(db: Db, worker: Str, now: int, id: StepId)
    requires id in InterruptWorker(db, worker, now).steps
    ensures id in db.steps
    ensures var s := db.steps[id];
      InterruptWorker(db, worker, now).steps[id] ==
        if s.status.Running? && s.worker == worker then s.(status := Status.Interrupted, worker := Empty, lease := 0) else s
  {
  }

  // A run it executes that is RUNNING is INTERRUPTED once nothing of it is active.
  lemma WorkerSweepsRuns(db: Db, worker: Str, now: int, r: Str)
    requires r in InterruptWorker(db, worker, now).runs
    ensures var db1 := InterruptWorker(db, worker, now);
      && r in db.runs
      && db1.runs[r] ==
           if Executes(db, worker, r) && db.runs[r].status.Running?
              && (forall id | id in db1.steps && id.run == r :: !IsActive(db1.steps[id].status))
           then db.runs[r].(status := Status.Interrupted, completedAt := now, uniqueKey := Empty)
           else db.runs[r]
  {
    assert Executes(db, worker, r) <==> r in RunsOfWorker(db, worker);
  }

  // A boot on a file: what was RUNNING or INTERRUPTED is QUEUED for now if work is kept;
  // if not it is FAILED for the reason, and SUSPENDED steps with it.
  lemma Boots(db: Db, keep: bool, reason: Str, now: int)
    ensures var db1 := Recover(db, keep, reason, now);
      && RunsGone(db, db1, set r | r in db.runs && db.runs[r].ephemeral)
      && (forall id | id in db1.steps ::
            var s := db.steps[id];
            db1.steps[id] ==
              if s.status.Running? || s.status.Interrupted? || (s.status.Suspended? && !keep) then
                s.(status := if keep then Queued else Failed, runAt := now, error := if keep then s.error else reason, resumeAt := 0, wait := NoWait)
              else s)
      && forall r | r in db1.runs ::
           var x := db.runs[r];
           db1.runs[r] ==
             if !(x.status.Running? || x.status.Interrupted?) then x
             else if keep then x.(status := Queued, runAt := now)
             else x.(status := Failed, runAt := now, error := reason, completedAt := now, uniqueKey := Empty)
  {
  }

  // ---- the journal --------------------------------------------------------------------------

  // A slot is written once, behind the ones before it, and only for a step that exists.
  lemma Appends(db: Db, id: StepId, idx: nat, e: Entry)
    ensures var db1 := AppendJournal(db, id, idx, e);
      && JournalOnly(db, db1, id)
      && Journal(db1, id) == if id in db.steps && idx == |Journal(db, id)| then Journal(db, id) + [e] else Journal(db, id)
  {
  }

  // The suspension and its slot are written together, for a RUNNING step, or not at all.
  lemma Suspends(db: Db, id: StepId, idx: nat, e: Entry, wait: Wait, resumeAt: int)
    ensures var db1 := SuspendWithJournal(db, id, idx, e, wait, resumeAt);
      if id in db.steps && db.steps[id].status.Running? && idx == |Journal(db, id)| then
        && db1.steps == db.steps[id := db.steps[id].(status := Suspended, resumeAt := resumeAt, wait := wait)]
        && Journal(db1, id) == Journal(db, id) + [e] && (forall j | j != id :: Journal(db1, j) == Journal(db, j))
        && db1.runs == db.runs && db1.next == db.next && db1.pausedQueues == db.pausedQueues
      else db1 == db
    ensures var db2 := SuspendStep(db, id, wait, resumeAt);
      if id in db.steps && db.steps[id].status.Running? then
        RowOnly(db, db2, id) && db2.steps[id] == db.steps[id].(status := Suspended, resumeAt := resumeAt, wait := wait)
      else db2 == db
  {
  }

  // A RunOnce result is written into its slot, and a timeout into one that is not done.
  lemma Decides(db: Db, id: StepId, idx: nat, result: Str)
    requires idx < |Journal(db, id)|
    ensures var e, db1, db2 := Journal(db, id)[idx], CompleteOnce(db, id, idx, result), TimeoutWait(db, id, idx);
      && JournalOnly(db, db1, id) && Journal(db1, id) == Journal(db, id)[idx := e.(done := true, result := result)]
      && JournalOnly(db, db2, id) && Journal(db2, id) == Journal(db, id)[idx := if e.done then e else e.(done := true, timedOut := true)]
  {
  }

  // The entry is an open wait for the event in a live run.
  predicate WaitsOpen(db: Db, id: StepId, i: nat, event: Str) {
    && id in db.steps && id.run in db.runs && !IsTerminal(db.runs[id.run].status)
    && i < |Journal(db, id)| && Journal(db, id)[i].kind.WaitFor? && !Journal(db, id)[i].done && Journal(db, id)[i].event == event
  }

  // A delivery writes the payload into every such entry and marks it done, and changes
  // nothing else about any entry.
  lemma DeliversEntries(db: Db, event: Str, payload: Str, id: StepId)
    ensures var db1 := DeliverEvent(db, event, payload);
      && |Journal(db1, id)| == |Journal(db, id)|
      && forall i: nat | i < |Journal(db, id)| ::
           var e, e1 := Journal(db, id)[i], Journal(db1, id)[i];
           if WaitsOpen(db, id, i, event) then
             && e1.done && e1.payload == payload
             && e1.kind == e.kind && e1.key == e.key && e1.event == e.event && e1.wakeAt == e.wakeAt && e1.deadline == e.deadline
             && e1.result == e.result && e1.timedOut == e.timedOut
           else e1 == e
  {
  }

  // It wakes the SUSPENDED steps that own one, due at once, and changes no other row.
  lemma DeliversSteps(db: Db, event: Str, payload: Str, id: StepId)
    ensures var db1 := DeliverEvent(db, event, payload);
      && db1.runs == db.runs && (id in db1.steps <==> id in db.steps)
      && (id in db.steps ==>
            db1.steps[id] ==
              if db.steps[id].status.Suspended? && (exists i: nat :: WaitsOpen(db, id, i, event)) then
                db.steps[id].(status := Queued, resumeAt := 0, wait := NoWait)
              else db.steps[id])
  {
    if i: nat :| WaitsOpen(db, id, i, event) {
      assert Awaits(Journal(db, id)[i], event);
    }
    if Woken(db, id, event) {
      var i :| 0 <= i < |Journal(db, id)| && Awaits(Journal(db, id)[i], event);
      assert WaitsOpen(db, id, i, event);
    }
  }

  // ---- enqueueing ---------------------------------------------------------------------------

  // An insert adds the run and its steps and changes no other row.
  lemma Inserts(db: Db, n: NewRun)
    ensures var db1 := Inserted(db, n);
      && db1.runs.Keys == db.runs.Keys + {n.id} && db1.runs[n.id] == n.run && (forall r | r in db.runs && r != n.id :: db1.runs[r] == db.runs[r])
      && (forall name | name in n.steps :: StepId(n.id, name) in db1.steps && db1.steps[StepId(n.id, name)] == n.steps[name])
      && (forall id | id in db1.steps :: (id.run == n.id && id.name in n.steps) || id in db.steps)
      && (forall id | id in db.steps && !(id.run == n.id && id.name in n.steps) :: id in db1.steps && db1.steps[id] == db.steps[id])
      && db1.journal == db.journal && db1.next == db.next && db1.pausedQueues == db.pausedQueues
  {
  }

  // A run that takes a number takes the next one, and its steps carry it with the run's
  // sequence key.
  lemma Numbers(db: Db, n: NewRun)
    ensures var db1, n1 := Numbered(db, n), Stamped(n, db.next + 1);
      if n.run.seqKey == Empty && n.policy.key == Empty then db1 == db && n1 == n
      else
        && db1 == db.(next := db.next + 1) && n1.run == n.run.(seqNo := db.next + 1)
        && n1.steps.Keys == n.steps.Keys && n1.id == n.id && n1.conflict == n.conflict && n1.policy == n.policy
        && forall name | name in n.steps :: n1.steps[name] == n.steps[name].(seqKey := n.run.seqKey, seqNo := db.next + 1)
  {
  }

  function AtLeast1(n: int): int {
    if n >= 1 then n else 1
  }

  // A step of a built run: due when the request says, or at once; with its definition's
  // queue, keys and labels, and limits and attempts of at least one.
  ghost predicate BuiltAs(s: Step, r: Request, j: nat, now: int)
    requires j < |r.steps| && r.steps[j].def.Some?
  {
    var req, d := r.steps[j].req, r.steps[j].def.value;
    && s.ord == j && s.deps == req.deps && (s.status == if req.deps == [] then Queued else Blocked)
    && s.runAt == (match r.runAt case Some(at) => at case None => now)
    && s.queue == d.queue && s.priority == r.priority && s.maxAttempts == AtLeast1(d.maxAttempts) && s.attempts == 0
    && s.key == d.key && s.keyLimit == (if d.key == Empty then 0 else AtLeast1(d.keyLimit))
    && (forall name :: name in s.keys <==> name in d.keys && d.keys[name].value != Empty)
    && (forall name | name in s.keys :: s.keys[name].value == d.keys[name].value && s.keys[name].limit == AtLeast1(d.keys[name].limit))
    && s.labels == d.labels && s.seqKey == d.seqKey && s.seqNo == 0
    && s.output == Empty && s.error == Empty && s.startedAt == 0 && s.claimedAt == 0 && s.resumeAt == 0 && s.wait.NoWait?
    && s.worker == Empty && s.lease == 0
  }

  lemma BuiltSteps(r: Request, steps: map<Str, Step>, now: int, j: nat)
    requires Defined(r, |r.steps|) && BuiltFrom(steps, r, |r.steps|, now) && j < |r.steps|
    ensures r.steps[j].req.name in steps && BuiltAs(steps[r.steps[j].req.name], r, j, now)
  {
    assert steps[r.steps[j].req.name] == BuiltStep(r, r.steps[j].req, r.steps[j].def.value, j, now);
  }

  // The run: keys and sequence of its first step's definition, and that step's queue if
  // the request names none.
  lemma BuiltRuns(r: Request, d: TaskDef, now: int)
    ensures var x := BuiltRun(r, d, now);
      && x.status.Queued? && x.workflow == r.workflow && x.queue == (if r.queue != Empty then r.queue else d.queue)
      && x.runAt == (match r.runAt case Some(at) => at case None => now) && x.createdAt == now
      && x.key == d.key && x.uniqueKey == r.uniqueKey && x.seqKey == d.seqKey && x.seqNo == 0 && x.ephemeral == r.ephemeral
      && x.output == Empty && x.error == Empty && x.attempts == 0
      && x.startedAt == 0 && x.completedAt == 0 && x.pausedAt == 0 && x.deadAt == 0
  {
  }
}
