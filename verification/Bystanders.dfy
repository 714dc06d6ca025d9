// What the operations that are not about a step's attempts, its suspension or
// its journal leave alone, row by row.

module Bystanders {
  import opened Names
  import opened Schema
  import opened Transitions
  import opened Enqueue
  import opened Machine
  import opened Frame
  import opened Progress

  predicate InHand(s: Step) {
    s.status.Running? || s.status.Suspended?
  }

  // A step that will be claimed again, or is claimed.
  predicate Awake(s: Step) {
    s.status.Queued? || s.status.Running? || s.status.Blocked? || s.status.Interrupted?
  }

  predicate Untouched(s: Step, s1: Step) {
    && s1.attempts == s.attempts && s1.maxAttempts == s.maxAttempts
    && (s1.status.Running? ==> s.status.Running?)
    && (s1.status.Suspended? ==> s.status.Suspended? && s1.wait == s.wait && s1.resumeAt == s.resumeAt)
    && (Awake(s1) ==> Awake(s))
  }

  ghost predicate Undisturbed(db: Db, db1: Db) {
    && db1.steps.Keys <= db.steps.Keys
    && (forall id | id in db1.steps :: Untouched(db.steps[id], db1.steps[id]))
    && (forall id | id in db1.steps :: Journal(db1, id) == Journal(db, id))
  }

  lemma UndisturbedTrans(a: Db, b: Db, c: Db)
    requires Undisturbed(a, b) && Undisturbed(b, c)
    ensures Undisturbed(a, c)
  {
  }

  predicate RunOp(op: Op) {
    op.RunCancelled? || op.RunPaused? || op.RunResumed? || op.RunSnoozed? || op.RunsPurged? || op.DeadLetterDismissed? || op.StepFailed?
  }

  predicate TableOp(op: Op) {
    op.LeasesReaped? || op.LeasesExtended? || op.QueuePaused? || op.QueueResumed? || op.StepStopped? || op.StepRetried?
  }

  predicate BystanderOp(op: Op) {
    RunOp(op) || TableOp(op) || Sweeps(op) || op.StepDone? || op.Recovered? || op.Rebooted?
  }

  lemma DeleteUndisturbed(db: Db, ids: set<Str>)
    ensures Undisturbed(db, DeleteRuns(db, ids))
  {
  }

  lemma CancelRowUndisturbed(db: Db, run: Str, running: bool, now: int)
    ensures Undisturbed(db, CancelRow(db, run, running, now))
  {
  }

  lemma CancelUndisturbed(db: Db, run: Str, now: int)
    ensures Undisturbed(db, CancelOrDelete(db, run, now))
    ensures Undisturbed(db, CancelRun(db, run, now))
  {
    DeleteUndisturbed(db, {run});
    CancelRowUndisturbed(db, run, false, now);
  }

  lemma ResumeUndisturbed(db: Db, run: Str, now: int)
    ensures Undisturbed(db, ResumeRun(db, run, now))
  {
  }

  lemma SnoozeUndisturbed(db: Db, run: Str, until: int)
    ensures Undisturbed(db, Snooze(db, run, until))
  {
  }

  lemma FailUndisturbed(db: Db, id: StepId, error: Str, deadLetter: bool, now: int)
    ensures Undisturbed(db, FinalFail(db, id, error, deadLetter, now))
  {
  }

  lemma RunOpUndisturbed(db: Db, op: Op)
    requires RunOp(op)
    ensures Undisturbed(db, Apply(db, op))
  {
    if op.RunCancelled? {
      assert Apply(db, op) == CancelRun(db, op.run, op.now);
      CancelUndisturbed(db, op.run, op.now);
    } else if op.RunResumed? {
      assert Apply(db, op) == ResumeRun(db, op.run, op.now);
      ResumeUndisturbed(db, op.run, op.now);
    } else if op.RunSnoozed? {
      assert Apply(db, op) == Snooze(db, op.run, op.until);
      SnoozeUndisturbed(db, op.run, op.until);
    } else if op.RunsPurged? {
      assert Apply(db, op) == DeleteRuns(db, op.runIds);
      DeleteUndisturbed(db, op.runIds);
    } else if op.StepFailed? {
      assert Apply(db, op) == FinalFail(db, op.id, op.error, op.deadLetter, op.now);
      FailUndisturbed(db, op.id, op.error, op.deadLetter, op.now);
    } else {
      assert Apply(db, op).steps == db.steps && Apply(db, op).journal == db.journal;
    }
  }

  lemma ReapUndisturbed(db: Db, ids: set<StepId>, now: int)
    ensures Undisturbed(db, Reap(db, ids, now))
  {
  }

  lemma HeartbeatUndisturbed(db: Db, worker: Str, until: int)
    ensures Undisturbed(db, Heartbeat(db, worker, until))
  {
  }

  lemma StopUndisturbed(db: Db, id: StepId)
    ensures Undisturbed(db, StepCancelled(db, id))
  {
  }

  lemma RetryUndisturbed(db: Db, id: StepId, error: Str, nextRunAt: int)
    ensures Undisturbed(db, RetryStep(db, id, error, nextRunAt))
  {
  }

  lemma TableOpUndisturbed(db: Db, op: Op)
    requires TableOp(op)
    ensures Undisturbed(db, Apply(db, op))
  {
    if op.LeasesReaped? {
      ReapUndisturbed(db, op.ids, op.now);
    } else if op.LeasesExtended? {
      HeartbeatUndisturbed(db, op.worker, op.until);
    } else if op.StepStopped? {
      StopUndisturbed(db, op.id);
    } else if op.StepRetried? {
      RetryUndisturbed(db, op.id, op.error, op.nextRunAt);
    }
  }

  lemma RecoverUndisturbed(db: Db, keep: bool, reason: Str, now: int)
    ensures Undisturbed(db, Recover(db, keep, reason, now))
  {
    var db1 := Recover(db, keep, reason, now);
    forall id | id in db1.steps ensures db1.steps[id] == RecoveredStep(db.steps[id], keep, reason, now) {
    }
  }

  lemma InterruptUndisturbed(db: Db, now: int)
    ensures Undisturbed(db, InterruptAll(db, now))
  {
  }

  lemma InterruptWorkerUndisturbed(db: Db, worker: Str, now: int)
    ensures Undisturbed(db, InterruptWorker(db, worker, now))
  {
  }

  lemma FinishUndisturbed(db: Db, run: Str, status: Status, output: Str, error: Str, now: int)
    requires run in db.runs
    ensures Undisturbed(db, FinishRun(db, run, status, output, error, now))
  {
  }

  lemma UnblockUndisturbed(db: Db, id: StepId, now: int)
    ensures Undisturbed(db, AfterUnblock(db, id.run, id.name, now))
  {
    forall j | j in db.steps ensures Untouched(db.steps[j], AfterUnblock(db, id.run, id.name, now).steps[j]) {
      UnblockedRow(db, id, now, j);
    }
  }

  lemma ConcludeUndisturbed(db: Db, run: Str, ready: set<Str>, now: int)
    requires run in db.runs
    ensures Undisturbed(db, Conclude(db, run, ready, now).0)
  {
    if !AnyActive(db.steps, run) {
      var failed := AnyFailed(db.steps, run);
      FinishUndisturbed(db, run, if failed then Failed else Succeeded, LastOutput(db.steps, run),
                        if failed then FailedError(db.steps, run) else Empty, now);
    }
  }

  lemma SucceedUndisturbed(db: Db, id: StepId, output: Str)
    requires id in db.steps
    ensures Undisturbed(db, db.(steps := SucceedStep(db.steps, id, output)))
  {
  }

  lemma CompleteUndisturbed(db: Db, id: StepId, count: int, output: Str, now: int)
    requires Complete(db, id, count, output, now).Some?
    ensures Undisturbed(db, Complete(db, id, count, output, now).value.0)
  {
    if Accepts(db, id) {
      var db1, db3 := db.(steps := SucceedStep(db.steps, id, output)), Complete(db, id, count, output, now).value.0;
      SucceedUndisturbed(db, id, output);
      if count == 1 {
        FinishUndisturbed(db1, id.run, Succeeded, output, Empty, now);
        UndisturbedTrans(db, db1, db3);
      } else {
        var db2 := AfterUnblock(db1, id.run, id.name, now);
        UnblockUndisturbed(db1, id, now);
        UndisturbedTrans(db, db1, db2);
        ConcludeUndisturbed(db2, id.run, Unblocked(db1.steps, id.run, id.name), now);
        UndisturbedTrans(db, db2, db3);
      }
    }
  }

  lemma {:induction false} CancelAllUndisturbed(db: Db, victims: seq<Str>, now: int)
    ensures Undisturbed(db, CancelAll(db, victims, now))
  {
    if victims != [] {
      var mid := CancelAll(db, victims[..|victims| - 1], now);
      CancelAllUndisturbed(db, victims[..|victims| - 1], now);
      CancelUndisturbed(mid, victims[|victims| - 1], now);
      UndisturbedTrans(db, mid, CancelAll(db, victims, now));
    }
  }

  lemma PrepareUndisturbed(db0: Db, a: Db, now: int)
    requires Prepares(db0, a, now)
    ensures Undisturbed(db0, a)
  {
  }

  lemma OpUndisturbed(db: Db, op: Op)
    requires BystanderOp(op)
    ensures Undisturbed(db, Apply(db, op))
  {
    match op
    case StepDone(id, output, now) =>
      if CompleteStep(db, id, output, now).Some? {
        CompleteUndisturbed(db, id, |StepsOf(db.steps, id.run)|, output, now);
      }
    case Interrupted(now) => InterruptUndisturbed(db, now);
    case WorkerClosed(worker, now) => InterruptWorkerUndisturbed(db, worker, now);
    case Recovered(keep, reason, now) => RecoverUndisturbed(db, keep, reason, now);
    case Rebooted(graceful, keep, reason, now) =>
      var mid := if graceful then InterruptAll(db, now) else db;
      InterruptUndisturbed(db, now);
      RecoverUndisturbed(mid, keep, reason, now);
      if graceful {
        UndisturbedTrans(db, mid, Apply(db, op));
      }
    case _ =>
      if RunOp(op) {
        RunOpUndisturbed(db, op);
      } else {
        TableOpUndisturbed(db, op);
      }
  }
}
