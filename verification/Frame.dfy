// What no operation but an enqueue or a claim can do to a row: the summary every
// invariant over all operations rests on.

module Frame {
  import opened Collections
  import opened Names
  import opened Schema
  import opened Transitions
  import opened Enqueue
  import opened Machine

  // Columns no transaction writes after the insert.
  predicate SameColumns(s: Step, s1: Step) {
    && s1.ord == s.ord && s1.deps == s.deps && s1.queue == s.queue && s1.priority == s.priority
    && s1.maxAttempts == s.maxAttempts && s1.key == s.key && s1.keyLimit == s.keyLimit
    && s1.keys == s.keys && s1.labels == s.labels && s1.seqKey == s.seqKey && s1.seqNo == s.seqNo
  }

  // No step starts RUNNING, only a RUNNING one is suspended, and a claim stamp is kept
  // or cleared.
  predicate StepFrame(s: Step, s1: Step) {
    && SameColumns(s, s1)
    && (s1.status.Running? ==> s.status.Running?)
    && (s1.status.Suspended? ==> s.status.Suspended? || s.status.Running?)
    && (s1.claimedAt == s.claimedAt || s1.claimedAt == 0)
  }

  // Finished steps stay finished and keep the time of their first start, and no
  // step is interrupted.
  predicate StepStays(s: Step, s1: Step) {
    && (IsActive(s1.status) ==> IsActive(s.status))
    && (s1.status.Interrupted? ==> s.status.Interrupted?)
    && s1.startedAt == s.startedAt
  }

  predicate RunFrame(r: Run, r1: Run) {
    && r1.workflow == r.workflow && r1.key == r.key && r1.seqKey == r.seqKey && r1.seqNo == r.seqNo
    && r1.ephemeral == r.ephemeral
    && (r1.uniqueKey == r.uniqueKey || r1.uniqueKey == Empty)
    && (IsTerminal(r1.status) && !IsTerminal(r.status) ==> r1.uniqueKey == Empty)
  }

  ghost predicate Quiet(db: Db, db1: Db) {
    && db1.steps.Keys <= db.steps.Keys
    && db1.runs.Keys <= db.runs.Keys
    && db1.next == db.next
    && (forall id | id in db1.steps :: StepFrame(db.steps[id], db1.steps[id]))
    && (forall r | r in db1.runs :: RunFrame(db.runs[r], db1.runs[r]))
  }

  ghost predicate Stays(db: Db, db1: Db) {
    forall id | id in db1.steps && id in db.steps :: StepStays(db.steps[id], db1.steps[id])
  }

  // Terminal runs keep their status, but for the ones an operation may reopen.
  ghost predicate Keeps(db: Db, db1: Db, failed: bool, interrupted: bool) {
    forall r | r in db1.runs && r in db.runs && IsTerminal(db.runs[r].status) ::
      || db1.runs[r].status == db.runs[r].status
      || (failed && db.runs[r].status.Failed?)
      || (interrupted && db.runs[r].status.Interrupted?)
  }

  // A step succeeds only in a live run.
  ghost predicate Earned(db: Db, db1: Db) {
    forall id | id in db1.steps && id in db.steps && db1.steps[id].status.Succeeded? && !db.steps[id].status.Succeeded? ::
      Live(db, id.run)
  }

  // All four, with nothing reopened and no run interrupted.
  ghost predicate Steady(db: Db, db1: Db) {
    && Quiet(db, db1) && Stays(db, db1) && Keeps(db, db1, false, false) && Earned(db, db1)
    && forall r | r in db1.runs && r in db.runs && db1.runs[r].status.Interrupted? :: db.runs[r].status.Interrupted?
  }

  lemma SteadyTrans(a: Db, b: Db, c: Db)
    requires Steady(a, b) && Steady(b, c)
    ensures Steady(a, c)
  {
  }

  lemma StepSteady(db: Db, id: StepId, s: Step, journal: map<StepId, seq<Entry>>)
    requires id in db.steps && StepFrame(db.steps[id], s) && StepStays(db.steps[id], s)
    requires s.status.Succeeded? ==> db.steps[id].status.Succeeded? || Live(db, id.run)
    ensures Steady(db, db.(steps := db.steps[id := s], journal := journal))
  {
  }

  lemma DeleteSteady(db: Db, ids: set<Str>)
    ensures Steady(db, DeleteRuns(db, ids))
  {
  }

  // ---- the operations on one row ---------------------------------------------------

  predicate StatusOp(op: Op) {
    op.StepRetried? || op.StepParked? || op.StepRequeued? || op.StepStopped? || op.AwaitRecorded? || op.AwaitResumed?
  }

  predicate JournalOp(op: Op) {
    op.EntryAppended? || op.OnceCompleted? || op.WaitTimedOut?
  }

  // The row a status operation leaves in place of a running (or started) one.
  ghost predicate OneRow(db: Db, db1: Db, id: StepId) {
    && id in db.steps && id in db1.steps
    && db1 == db.(steps := db.steps[id := db1.steps[id]], journal := db1.journal)
    && StepFrame(db.steps[id], db1.steps[id]) && StepStays(db.steps[id], db1.steps[id])
    && (db1.steps[id].status.Succeeded? ==> db.steps[id].status.Succeeded?)
  }

  lemma OneRowSteady(db: Db, db1: Db, id: StepId)
    requires OneRow(db, db1, id)
    ensures Steady(db, db1)
  {
    StepSteady(db, id, db1.steps[id], db1.journal);
  }

  lemma RequeueRow(db: Db, op: Op)
    requires (op.StepRetried? || op.StepParked? || op.StepRequeued?) && op.id in db.steps
    ensures OneRow(db, Apply(db, op), op.id)
  {
  }

  lemma StopRow(db: Db, op: Op)
    requires op.StepStopped? && op.id in db.steps
    ensures OneRow(db, Apply(db, op), op.id)
  {
  }

  lemma SuspendRow(db: Db, op: Op)
    requires (op.AwaitRecorded? || op.AwaitResumed?) && op.id in db.steps
    ensures OneRow(db, Apply(db, op), op.id)
  {
  }

  lemma JournalOpKeepsRows(db: Db, op: Op)
    requires JournalOp(op) || (StatusOp(op) && op.id !in db.steps)
    ensures Apply(db, op) == db.(journal := Apply(db, op).journal)
  {
  }

  lemma StepOpSteady(db: Db, op: Op)
    requires StatusOp(op) || JournalOp(op)
    ensures Steady(db, Apply(db, op))
  {
    if JournalOp(op) || op.id !in db.steps {
      JournalOpKeepsRows(db, op);
    } else {
      if op.StepRetried? || op.StepParked? || op.StepRequeued? {
        RequeueRow(db, op);
      } else if op.StepStopped? {
        StopRow(db, op);
      } else {
        SuspendRow(db, op);
      }
      OneRowSteady(db, Apply(db, op), op.id);
    }
  }

  lemma PauseSteady(db: Db, run: Str, now: int)
    ensures Steady(db, PauseRun(db, run, now))
  {
  }

  lemma DismissSteady(db: Db, run: Str)
    ensures Steady(db, DismissDeadLetter(db, run))
  {
  }

  lemma QueuesSteady(db: Db, queues: set<Str>)
    ensures Steady(db, db.(pausedQueues := queues))
  {
  }

  // ---- the operations on many rows --------------------------------------------------

  // Row by row, then for the whole tables.
  lemma RowsSteady(db: Db, db1: Db)
    requires db1.steps.Keys <= db.steps.Keys && db1.runs.Keys <= db.runs.Keys && db1.next == db.next
    requires forall id | id in db1.steps :: StepFrame(db.steps[id], db1.steps[id]) && StepStays(db.steps[id], db1.steps[id])
    requires forall id | id in db1.steps && db1.steps[id].status.Succeeded? :: db.steps[id].status.Succeeded?
    requires forall r | r in db1.runs :: RunFrame(db.runs[r], db1.runs[r])
    requires forall r | r in db1.runs && IsTerminal(db.runs[r].status) :: db1.runs[r].status == db.runs[r].status
    requires forall r | r in db1.runs && db1.runs[r].status.Interrupted? :: db.runs[r].status.Interrupted?
    ensures Steady(db, db1)
  {
  }

  lemma FailedRow(s: Step, self: bool, error: Str)
    ensures StepFrame(s, FailedStep(s, self, error)) && StepStays(s, FailedStep(s, self, error))
  {
  }

  lemma FailedRunRow(r: Run, error: Str, deadLetter: bool, now: int)
    ensures RunFrame(r, FailedRun(r, error, deadLetter, now))
    ensures IsTerminal(r.status) ==> FailedRun(r, error, deadLetter, now).status == r.status
  {
  }

  lemma FailSteady(db: Db, id: StepId, error: Str, deadLetter: bool, now: int)
    ensures Steady(db, FinalFail(db, id, error, deadLetter, now))
  {
    if id.run in db.runs {
      var db1 := FinalFail(db, id, error, deadLetter, now);
      forall j | j in db1.steps ensures StepFrame(db.steps[j], db1.steps[j]) && StepStays(db.steps[j], db1.steps[j]) {
        FailedRow(db.steps[j], j == id, error);
      }
      FailedRunRow(db.runs[id.run], error, deadLetter, now);
      RowsSteady(db, db1);
    }
  }

  lemma DeliverSteady(db: Db, event: Str, payload: Str)
    ensures Steady(db, DeliverEvent(db, event, payload))
  {
  }

  lemma CancelRowSteady(db: Db, run: Str, running: bool, now: int)
    requires Live(db, run) || run !in db.runs
    ensures Steady(db, CancelRow(db, run, running, now))
  {
  }

  lemma CancelOrDeleteSteady(db: Db, run: Str, now: int)
    requires Live(db, run) || run !in db.runs
    ensures Steady(db, CancelOrDelete(db, run, now))
  {
    CancelRowSteady(db, run, false, now);
    DeleteSteady(db, {run});
  }

  lemma CancelSteady(db: Db, run: Str, now: int)
    ensures Steady(db, CancelRun(db, run, now))
  {
    if Live(db, run) {
      CancelOrDeleteSteady(db, run, now);
    }
  }

  // A live run and its QUEUED steps move to another time.
  lemma MovedSteady(db: Db, run: Str, at: int, r: Run)
    requires Live(db, run) && RunFrame(db.runs[run], r) && !IsTerminal(r.status)
    ensures Steady(db, db.(steps := QueuedAt(db.steps, run, at), runs := db.runs[run := r]))
  {
    forall id | id in db.steps
      ensures StepFrame(db.steps[id], QueuedAt(db.steps, run, at)[id]) && StepStays(db.steps[id], QueuedAt(db.steps, run, at)[id])
      ensures QueuedAt(db.steps, run, at)[id].status == db.steps[id].status
    {
    }
  }

  lemma ResumeSteady(db: Db, run: Str, now: int)
    ensures Steady(db, ResumeRun(db, run, now))
  {
    if Live(db, run) && db.runs[run].status.Paused? {
      MovedSteady(db, run, now, db.runs[run].(status := Queued, runAt := now, pausedAt := 0));
    }
  }

  lemma SnoozeSteady(db: Db, run: Str, until: int)
    ensures Steady(db, Snooze(db, run, until))
  {
    if Live(db, run) && !AnyRunning(db.steps, run) {
      MovedSteady(db, run, until, db.runs[run].(runAt := until));
    }
  }

  lemma ReapSteady(db: Db, ids: set<StepId>, now: int)
    ensures Steady(db, Reap(db, ids, now))
  {
  }

  lemma HeartbeatSteady(db: Db, worker: Str, until: int)
    ensures Steady(db, Heartbeat(db, worker, until))
  {
  }

  lemma InterruptQuiet(db: Db, now: int)
    ensures Quiet(db, InterruptAll(db, now)) && Keeps(db, InterruptAll(db, now), false, false)
  {
  }

  lemma InterruptWorkerQuiet(db: Db, worker: Str, now: int)
    ensures Quiet(db, InterruptWorker(db, worker, now)) && Keeps(db, InterruptWorker(db, worker, now), false, false)
  {
    var db1 := InterruptWorker(db, worker, now);
    forall j | j in db1.steps ensures StepFrame(db.steps[j], db1.steps[j]) {
    }
    forall r | r in db1.runs
      ensures RunFrame(db.runs[r], db1.runs[r]) && (IsTerminal(db.runs[r].status) ==> db1.runs[r].status == db.runs[r].status)
    {
    }
  }

  lemma DeadLetterQuiet(db: Db, run: Str, now: int)
    ensures Quiet(db, RetryDeadLetter(db, run, now)) && Keeps(db, RetryDeadLetter(db, run, now), true, false)
  {
  }

  lemma RecoverQuiet(db: Db, keep: bool, reason: Str, now: int)
    ensures Quiet(db, Recover(db, keep, reason, now)) && Keeps(db, Recover(db, keep, reason, now), false, true)
  {
    var db1 := Recover(db, keep, reason, now);
    forall j | j in db1.steps ensures StepFrame(db.steps[j], db1.steps[j]) {
      assert db1.steps[j] == RecoveredStep(db.steps[j], keep, reason, now);
    }
    forall r | r in db1.runs ensures RunFrame(db.runs[r], db1.runs[r]) {
      assert db1.runs[r] == RecoveredRun(db.runs[r], keep, reason, now);
    }
  }

  // ---- completion ------------------------------------------------------------------

  lemma FinishSteady(db: Db, run: Str, status: Status, output: Str, error: Str, now: int)
    requires run in db.runs && (status.Succeeded? || status.Failed?)
    ensures Steady(db, FinishRun(db, run, status, output, error, now))
  {
    var r := db.runs[run].(status := status, output := output, error := error, completedAt := now, uniqueKey := Empty);
    var db1 := if IsTerminal(db.runs[run].status) then db else db.(runs := db.runs[run := r]);
    assert Steady(db, db1);
    DeleteSteady(db1, {run});
    SteadyTrans(db, db1, DeleteRuns(db1, {run}));
  }

  lemma UnblockSteady(db: Db, run: Str, name: Str, now: int)
    ensures Steady(db, db.(steps := QueueSteps(db.steps, run, Unblocked(db.steps, run, name), now)))
  {
    var db1 := db.(steps := QueueSteps(db.steps, run, Unblocked(db.steps, run, name), now));
    forall j | j in db1.steps ensures StepFrame(db.steps[j], db1.steps[j]) && StepStays(db.steps[j], db1.steps[j]) {
    }
    RowsSteady(db, db1);
  }

  lemma ConcludeSteady(db: Db, run: Str, ready: set<Str>, now: int)
    requires run in db.runs
    ensures Steady(db, Conclude(db, run, ready, now).0)
  {
    if !AnyActive(db.steps, run) {
      var failed := AnyFailed(db.steps, run);
      FinishSteady(db, run, if failed then Failed else Succeeded, LastOutput(db.steps, run),
                   if failed then FailedError(db.steps, run) else Empty, now);
    }
  }

  lemma CompleteSteady(db: Db, id: StepId, count: int, output: Str, now: int)
    ensures Complete(db, id, count, output, now).Some? ==> Steady(db, Complete(db, id, count, output, now).value.0)
  {
    if Accepts(db, id) {
      var db1 := db.(steps := SucceedStep(db.steps, id, output));
      StepSteady(db, id, db1.steps[id], db.journal);
      if count == 1 {
        FinishSteady(db1, id.run, Succeeded, output, Empty, now);
        SteadyTrans(db, db1, FinishRun(db1, id.run, Succeeded, output, Empty, now));
      } else {
        var ready := Unblocked(db1.steps, id.run, id.name);
        var db2 := db1.(steps := QueueSteps(db1.steps, id.run, ready, now));
        UnblockSteady(db1, id.run, id.name, now);
        SteadyTrans(db, db1, db2);
        ConcludeSteady(db2, id.run, ready, now);
        SteadyTrans(db, db2, Conclude(db2, id.run, ready, now).0);
      }
    } else if id in db.steps && (db.steps[id].status.Queued? || db.steps[id].status.Running?) {
      StepSteady(db, id, db.steps[id].(status := Cancelled), db.journal);
    }
  }

  // ---- enqueueing --------------------------------------------------------------------

  lemma {:induction false} CancelAllSteady(db: Db, victims: seq<Str>, now: int)
    requires Distinct(victims) && forall v | v in victims :: Live(db, v)
    ensures Steady(db, CancelAll(db, victims, now))
    ensures forall r | r !in victims :: Live(CancelAll(db, victims, now), r) <==> Live(db, r)
  {
    if victims != [] {
      var front, last := victims[..|victims| - 1], victims[|victims| - 1];
      assert victims == front + [last];
      CancelAllSteady(db, front, now);
      var mid := CancelAll(db, front, now);
      CancelOrDeleteSteady(mid, last, now);
      SteadyTrans(db, mid, CancelOrDelete(mid, last, now));
    }
  }

  lemma StrategySteady(db: Db, n: NewRun, now: int)
    ensures Steady(db, CancelAll(db, StrategyVictims(db, n), now))
  {
    var cands := BySeq(db.runs, Contenders(db, n.run.key));
    if UsesStrategy(n) {
      VictimsDistinct(db.runs, cands, n.policy.limit, n.policy.strategy);
      forall v | v in Victims(db.runs, cands, n.policy.limit, n.policy.strategy) ensures Live(db, v) {
        assert v in cands;
      }
      CancelAllSteady(db, StrategyVictims(db, n), now);
    }
  }

  // What is inserted, and the database it goes into: the run it replaces, if
  // any, is cancelled first.
  ghost predicate Prepares(db: Db, a: Db, now: int) {
    a == db || exists r :: Live(db, r) && a == CancelRow(db, r, true, now)
  }

  lemma PrepareSteady(db: Db, a: Db, now: int)
    requires Prepares(db, a, now)
    ensures Steady(db, a) && a.runs.Keys == db.runs.Keys && a.steps.Keys == db.steps.Keys
  {
    if a != db {
      var r :| Live(db, r) && a == CancelRow(db, r, true, now);
      CancelRowSteady(db, r, true, now);
    }
  }

  // A resolved run is inserted and its strategy applied; or it is reused and
  // nothing changes.
  ghost predicate Enqueues(db: Db, n: NewRun, now: int, out: Outcome, a: Db, inserted: bool) {
    && Prepares(db, a, now)
    && out.Enqueued?
    && if inserted then
         && out.id == n.id
         && (n.run.uniqueKey != Empty ==> !Collides(a, n))
         && out.db == CancelAll(Inserted(a, n), StrategyVictims(Inserted(a, n), n), now)
       else out.db == db && out.id in db.runs
  }

  lemma ResolveParts(db: Db, n: NewRun, now: int) returns (a: Db, inserted: bool)
    requires Resolve(db, n, now).Enqueued?
    ensures Enqueues(db, n, now, Resolve(db, n, now), a, inserted)
  {
    a, inserted := db, true;
    if n.run.uniqueKey != Empty && UniqueHolders(db, n.run.workflow, n.run.uniqueKey) != {} {
      var existing := Holder(UniqueHolders(db, n.run.workflow, n.run.uniqueKey));
      match n.conflict
      case Replace => a := CancelRow(db, existing, true, now);
      case Reuse => inserted := false;
      case Error =>
    }
  }

  lemma EnqueueParts(db: Db, n: NewRun, now: int) returns (a: Db, inserted: bool)
    requires EnqueueOne(db, n, now).Enqueued?
    ensures Enqueues(Numbered(db, n), Stamped(n, db.next + 1), now, EnqueueOne(db, n, now), a, inserted)
  {
    a, inserted := ResolveParts(Numbered(db, n), Stamped(n, db.next + 1), now);
  }

  // ---- every operation ---------------------------------------------------------------

  lemma QuietTrans(a: Db, b: Db, c: Db)
    requires Quiet(a, b) && Quiet(b, c)
    ensures Quiet(a, c)
  {
  }

  // Operations that may bring finished steps back.
  predicate Revives(op: Op) {
    op.DeadLetterRetried? || op.Recovered? || op.Rebooted?
  }

  // The shutdown sweeps.
  predicate Sweeps(op: Op) {
    op.Interrupted? || op.WorkerClosed?
  }

  lemma OpSteady(db: Db, op: Op)
    requires !op.EnqueueRun? && !op.ClaimQueue? && !Revives(op) && !Sweeps(op)
    ensures Steady(db, Apply(db, op))
  {
    if op.StepDone? {
      CompleteSteady(db, op.id, |StepsOf(db.steps, op.id.run)|, op.output, op.now);
    } else if op.StepFailed? {
      FailSteady(db, op.id, op.error, op.deadLetter, op.now);
    } else if op.EventEmitted? {
      DeliverSteady(db, op.event, op.payload);
    } else if op.RunCancelled? {
      CancelSteady(db, op.run, op.now);
    } else if op.RunResumed? {
      ResumeSteady(db, op.run, op.now);
    } else if op.RunSnoozed? {
      SnoozeSteady(db, op.run, op.until);
    } else if op.LeasesReaped? {
      ReapSteady(db, op.ids, op.now);
    } else if op.LeasesExtended? {
      HeartbeatSteady(db, op.worker, op.until);
    } else if op.RunPaused? {
      PauseSteady(db, op.run, op.now);
    } else if op.QueuePaused? {
      QueuesSteady(db, db.pausedQueues + {op.queue});
    } else if op.QueueResumed? {
      QueuesSteady(db, db.pausedQueues - {op.queue});
    } else if op.DeadLetterDismissed? {
      DismissSteady(db, op.run);
    } else if op.RunsPurged? {
      DeleteSteady(db, op.runIds);
    } else {
      StepOpSteady(db, op);
    }
  }

  lemma RebootQuiet(db: Db, graceful: bool, keep: bool, reason: Str, now: int)
    ensures Quiet(db, Reboot(db, graceful, keep, reason, now))
    ensures Keeps(db, Reboot(db, graceful, keep, reason, now), false, true)
  {
    var mid := if graceful then InterruptAll(db, now) else db;
    InterruptQuiet(db, now);
    RecoverQuiet(mid, keep, reason, now);
    if graceful {
      QuietTrans(db, mid, Reboot(db, graceful, keep, reason, now));
    }
  }

  lemma OpQuiet(db: Db, op: Op)
    requires !op.EnqueueRun? && !op.ClaimQueue?
    ensures Quiet(db, Apply(db, op))
    ensures Keeps(db, Apply(db, op), op.DeadLetterRetried?, op.Recovered? || op.Rebooted?)
  {
    if op.WorkerClosed? {
      InterruptWorkerQuiet(db, op.worker, op.now);
    } else if op.Interrupted? {
      InterruptQuiet(db, op.now);
    } else if op.DeadLetterRetried? {
      DeadLetterQuiet(db, op.run, op.now);
    } else if op.Recovered? {
      RecoverQuiet(db, op.keep, op.reason, op.now);
    } else if op.Rebooted? {
      RebootQuiet(db, op.graceful, op.keep, op.reason, op.now);
    } else {
      OpSteady(db, op);
    }
  }

  // ---- no step or run is left interrupted ---------------------------------------------

  ghost predicate Settled(db: Db) {
    && (forall id | id in db.steps :: !db.steps[id].status.Interrupted?)
    && (forall r | r in db.runs :: !db.runs[r].status.Interrupted?)
  }

  lemma SteadySettled(db: Db, db1: Db)
    requires Settled(db) && Steady(db, db1)
    ensures Settled(db1)
  {
    forall id | id in db1.steps ensures !db1.steps[id].status.Interrupted? {
      assert StepStays(db.steps[id], db1.steps[id]);
    }
  }

  // A row the sweep left, or the row before it.
  predicate SweptFrom(s: Step, s1: Step) {
    s1 == s || (s.status.Running? && s1 == s.(status := Status.Interrupted))
  }

  lemma SweptRows(db: Db, now: int)
    ensures forall id | id in InterruptAll(db, now).steps ::
      id in db.steps && SweptFrom(db.steps[id], InterruptAll(db, now).steps[id])
  {
  }

  lemma RecoveredRow(s: Step, s1: Step, keep: bool, reason: Str, now: int)
    requires !s.status.Interrupted? && SweptFrom(s, s1)
    ensures var s2 := RecoveredStep(s1, keep, reason, now); StepStays(s, s2) && !s2.status.Interrupted?
  {
  }

  lemma RecoverSettles(db: Db, mid: Db, keep: bool, reason: Str, now: int)
    requires Settled(db)
    requires forall id | id in mid.steps :: id in db.steps && SweptFrom(db.steps[id], mid.steps[id])
    ensures Settled(Recover(mid, keep, reason, now)) && Stays(db, Recover(mid, keep, reason, now))
  {
    var db1 := Recover(mid, keep, reason, now);
    forall id | id in db1.steps ensures StepStays(db.steps[id], db1.steps[id]) && !db1.steps[id].status.Interrupted? {
      RecoveredRow(db.steps[id], mid.steps[id], keep, reason, now);
    }
    forall r | r in db1.runs ensures !db1.runs[r].status.Interrupted? {
      assert db1.runs[r] == RecoveredRun(mid.runs[r], keep, reason, now);
    }
  }

  // A reboot leaves nothing interrupted, and brings back nothing that was done.
  lemma RebootSettles(db: Db, graceful: bool, keep: bool, reason: Str, now: int)
    requires Settled(db)
    ensures Settled(Reboot(db, graceful, keep, reason, now)) && Stays(db, Reboot(db, graceful, keep, reason, now))
  {
    SweptRows(db, now);
    RecoverSettles(db, if graceful then InterruptAll(db, now) else db, keep, reason, now);
  }

  lemma {:induction false} ClaimAllSettled(db: Db, cands: seq<Candidate>, c: Claimer)
    requires Settled(db)
    ensures Settled(ClaimAll(db, cands, c))
    decreases |cands|
  {
    if cands != [] {
      ClaimAllSettled(db, cands[..|cands| - 1], c);
    }
  }

  lemma InsertSettled(db: Db, n: NewRun)
    requires Settled(db) && !n.run.status.Interrupted?
    requires forall name | name in n.steps :: !n.steps[name].status.Interrupted?
    ensures Settled(Inserted(db, n))
  {
  }

  // A stamped run keeps what a built one satisfies.
  lemma StampedWell(n: NewRun, seqNo: int)
    requires WellFormed(n)
    ensures var m := Stamped(n, seqNo);
      && m.id == n.id && m.run.status == n.run.status && m.steps.Keys == n.steps.Keys
      && m.run.uniqueKey == n.run.uniqueKey && m.run.workflow == n.run.workflow
      && forall name | name in m.steps :: WellFormedStep(m.steps[name]) && m.steps[name].deps == n.steps[name].deps && m.steps[name].ord == n.steps[name].ord
  {
    forall name | name in n.steps ensures WellFormedStep(Stamped(n, seqNo).steps[name]) {
      assert WellFormedStep(n.steps[name]);
    }
  }

  lemma EnqueueSettled(db: Db, n: NewRun, now: int)
    requires Settled(db) && WellFormed(n) && EnqueueOne(db, n, now).Enqueued?
    ensures Settled(EnqueueOne(db, n, now).db)
  {
    var a, inserted := EnqueueParts(db, n, now);
    var db0, m := Numbered(db, n), Stamped(n, db.next + 1);
    if inserted {
      PrepareSteady(db0, a, now);
      SteadySettled(db0, a);
      StampedWell(n, db.next + 1);
      InsertSettled(a, m);
      StrategySteady(Inserted(a, m), m, now);
      SteadySettled(Inserted(a, m), EnqueueOne(db, n, now).db);
    }
  }

  lemma DeadLetterSettled(db: Db, run: Str, now: int)
    requires Settled(db)
    ensures Settled(RetryDeadLetter(db, run, now))
  {
  }

  // The operations of processes that each end and boot again as a whole.
  predicate SessionOp(op: Op) {
    !op.Interrupted? && !op.WorkerClosed? && !op.Recovered?
  }

  lemma OpSettled(db: Db, op: Op)
    requires Settled(db) && SessionOp(op) && Enabled(db, op)
    ensures Settled(Apply(db, op))
  {
    match op
    case ClaimQueue(_, cands, c, _) => ClaimAllSettled(db, cands, c);
    case EnqueueRun(n, now) => if EnqueueOne(db, n, now).Enqueued? { EnqueueSettled(db, n, now); }
    case Rebooted(graceful, keep, reason, now) => RebootSettles(db, graceful, keep, reason, now);
    case DeadLetterRetried(run, now) => DeadLetterSettled(db, run, now);
    case _ =>
      OpSteady(db, op);
      SteadySettled(db, Apply(db, op));
  }

  lemma {:induction false} SessionsSettle(ops: seq<Op>)
    requires Legal(ops) && forall op | op in ops :: SessionOp(op)
    ensures Settled(Exec(ops))
  {
    if ops != [] {
      SessionsSettle(ops[..|ops| - 1]);
      OpSettled(Exec(ops[..|ops| - 1]), ops[|ops| - 1]);
    }
  }
}
