// How runs end: terminal statuses are left only by dead-letter retry and boot
// recovery, and when a run succeeds all its steps have, unless one was lost before.

module Outcomes {
  import opened Names
  import opened Schema
  import opened Transitions
  import opened Enqueue
  import opened Machine
  import opened Frame
  import opened Progress
  import opened Disruptions

  // ---- terminal runs ----------------------------------------------------------------

  lemma KeepsTrans(a: Db, b: Db, c: Db)
    requires Keeps(a, b, false, false) && Keeps(b, c, false, false)
    requires forall r | r in a.runs && r in c.runs :: r in b.runs
    ensures Keeps(a, c, false, false)
  {
  }

  lemma {:induction false} ClaimAllKept(db: Db, cands: seq<Candidate>, c: Claimer)
    ensures Keeps(db, ClaimAll(db, cands, c), false, false) && Earned(db, ClaimAll(db, cands, c))
    ensures ClaimAll(db, cands, c).runs.Keys == db.runs.Keys && ClaimAll(db, cands, c).steps.Keys == db.steps.Keys
    ensures NoneSucceeds(db, ClaimAll(db, cands, c))
    decreases |cands|
  {
    if cands != [] {
      ClaimAllKept(db, cands[..|cands| - 1], c);
      ClaimOneKept(ClaimAll(db, cands[..|cands| - 1], c), cands[|cands| - 1], c);
    }
  }

  lemma ClaimOneKept(db: Db, cand: Candidate, c: Claimer)
    ensures var db1 := ClaimOne(db, cand.id, cand.resumed, c);
      && db1.runs.Keys == db.runs.Keys && db1.steps.Keys == db.steps.Keys
      && (forall r | r in db.runs :: db1.runs[r].status == db.runs[r].status || (db.runs[r].status.Queued? && db1.runs[r].status.Running?))
      && (forall id | id in db.steps && db1.steps[id].status.Succeeded? :: db.steps[id].status.Succeeded?)
  {
  }

  // No run turns SUCCEEDED.
  ghost predicate NoneSucceeds(db: Db, db1: Db) {
    forall r | r in db.runs && r in db1.runs && db1.runs[r].status.Succeeded? :: db.runs[r].status.Succeeded?
  }

  lemma {:induction false} CancelAllSucceedsNone(db: Db, victims: seq<Str>, now: int)
    ensures NoneSucceeds(db, CancelAll(db, victims, now)) && CancelAll(db, victims, now).runs.Keys <= db.runs.Keys
  {
    if victims != [] {
      CancelAllSucceedsNone(db, victims[..|victims| - 1], now);
      var mid := CancelAll(db, victims[..|victims| - 1], now);
      assert NoneSucceeds(mid, CancelOrDelete(mid, victims[|victims| - 1], now));
    }
  }

  lemma InsertKept(db: Db, n: NewRun)
    requires Rows(db) && n.id !in db.runs
    ensures Keeps(db, Inserted(db, n), false, false) && Earned(db, Inserted(db, n)) && NoneSucceeds(db, Inserted(db, n))
    ensures db.runs.Keys <= Inserted(db, n).runs.Keys && db.steps.Keys <= Inserted(db, n).steps.Keys
  {
    InsertedRows(db, n);
  }

  lemma EarnedTrans(a: Db, b: Db, c: Db)
    requires Earned(a, b) && Earned(b, c)
    requires forall id | id in a.steps && id in c.steps :: id in b.steps
    requires forall r | Live(b, r) && r in a.runs :: Live(a, r)
    requires forall id | id in a.steps :: id.run in a.runs
    ensures Earned(a, c)
  {
  }

  lemma PrepareSucceedsNone(db: Db, a: Db, now: int)
    requires Prepares(db, a, now)
    ensures NoneSucceeds(db, a)
  {
  }

  ghost predicate Kept(db: Db, db1: Db) {
    Keeps(db, db1, false, false) && Earned(db, db1) && NoneSucceeds(db, db1)
  }

  lemma KeptTrans(a: Db, b: Db, c: Db)
    requires Kept(a, b) && Kept(b, c) && Rows(a)
    requires forall r | r in a.runs && r in c.runs :: r in b.runs
    requires forall id | id in a.steps && id in c.steps :: id in b.steps
    ensures Kept(a, c)
  {
    forall r | Live(b, r) && r in a.runs ensures Live(a, r) {
    }
    KeepsTrans(a, b, c);
    EarnedTrans(a, b, c);
  }

  lemma EnqueueKept(db: Db, n: NewRun, now: int)
    requires Rows(db) && n.id !in db.runs && EnqueueOne(db, n, now).Enqueued?
    ensures Kept(db, EnqueueOne(db, n, now).db)
  {
    var a, inserted := EnqueueParts(db, n, now);
    var db0, m := Numbered(db, n), Stamped(n, db.next + 1);
    if inserted {
      PrepareSteady(db0, a, now);
      PrepareRows(db0, a, now);
      PrepareSucceedsNone(db0, a, now);
      InsertKept(a, m);
      KeptTrans(db0, a, Inserted(a, m));
      StrategySteady(Inserted(a, m), m, now);
      CancelAllSucceedsNone(Inserted(a, m), StrategyVictims(Inserted(a, m), m), now);
      KeptTrans(db0, Inserted(a, m), EnqueueOne(db, n, now).db);
    }
  }

  // SUCCEEDED and CANCELLED runs keep their status as long as they have a row,
  // FAILED ones until a dead-letter retry, INTERRUPTED ones until boot recovery.
  lemma TerminalStays(db: Db, op: Op)
    requires Rows(db) && Enabled(db, op)
    ensures Keeps(db, Apply(db, op), op.DeadLetterRetried?, op.Recovered? || op.Rebooted?)
  {
    match op
    case ClaimQueue(_, cands, c, _) => ClaimAllKept(db, cands, c);
    case EnqueueRun(n, now) => if EnqueueOne(db, n, now).Enqueued? { EnqueueKept(db, n, now); }
    case _ => OpQuiet(db, op);
  }

  predicate Final(s: Status) {
    s.Succeeded? || s.Cancelled?
  }

  // The run's row is there after each operation from the i-th on.
  ghost predicate Survives(ops: seq<Op>, i: nat, run: Str) {
    run in Exec(ops).runs && (|ops| > i ==> Survives(ops[..|ops| - 1], i, run))
  }

  lemma FinalStays(ops: seq<Op>, run: Str)
    requires Legal(ops) && ops != [] && run in Exec(ops).runs
    requires var before := Exec(ops[..|ops| - 1]).runs; run in before && Final(before[run].status)
    ensures Exec(ops).runs[run].status == Exec(ops[..|ops| - 1]).runs[run].status
  {
    RowsAlways(ops[..|ops| - 1]);
    TerminalStays(Exec(ops[..|ops| - 1]), ops[|ops| - 1]);
  }

  // A SUCCEEDED or CANCELLED run stays so for as long as its row survives.
  lemma {:induction false} FinalIsForever(ops: seq<Op>, i: nat, run: Str)
    requires Legal(ops) && i <= |ops| && Survives(ops, i, run)
    requires run in Exec(ops[..i]).runs && Final(Exec(ops[..i]).runs[run].status)
    ensures Exec(ops).runs[run].status == Exec(ops[..i]).runs[run].status
  {
    if i == |ops| {
      assert ops[..i] == ops;
    } else {
      var front := ops[..|ops| - 1];
      assert front[..i] == ops[..i];
      FinalIsForever(front, i, run);
      FinalStays(ops, run);
    }
  }

  // No operation makes a step of a terminal run SUCCEEDED.
  lemma NoSuccessAfterTheEnd(db: Db, op: Op)
    requires Rows(db) && Enabled(db, op)
    ensures Earned(db, Apply(db, op))
  {
    match op
    case ClaimQueue(_, cands, c, _) => ClaimAllKept(db, cands, c);
    case EnqueueRun(n, now) => if EnqueueOne(db, n, now).Enqueued? { EnqueueKept(db, n, now); }
    case _ => if Sweeps(op) || Revives(op) { SweepOpEarnsNone(db, op); } else { OpSteady(db, op); }
  }

  lemma RebootEarnsNone(db: Db, graceful: bool, keep: bool, reason: Str, now: int)
    ensures Earned(db, Reboot(db, graceful, keep, reason, now))
  {
    SweepEarnsNone(db, now);
    RecoverEarnsNone(db, if graceful then InterruptAll(db, now) else db, keep, reason, now);
  }

  lemma SweepOpEarnsNone(db: Db, op: Op)
    requires Sweeps(op) || Revives(op)
    ensures Earned(db, Apply(db, op))
  {
    if op.Interrupted? {
      assert Apply(db, op) == InterruptAll(db, op.now);
      SweepEarnsNone(db, op.now);
    } else if op.WorkerClosed? {
      assert Apply(db, op) == InterruptWorker(db, op.worker, op.now);
      WorkerEarnsNone(db, op.worker, op.now);
    } else if op.DeadLetterRetried? {
      assert Apply(db, op) == RetryDeadLetter(db, op.run, op.now);
      ResetEarnsNone(db, op.run, op.now);
    } else {
      BootEarnsNone(db, op);
    }
  }

  lemma BootEarnsNone(db: Db, op: Op)
    requires op.Recovered? || op.Rebooted?
    ensures Earned(db, Apply(db, op))
  {
    if op.Recovered? {
      assert Apply(db, op) == Recover(db, op.keep, op.reason, op.now);
      RecoverEarnsNone(db, db, op.keep, op.reason, op.now);
    } else {
      assert Apply(db, op) == Reboot(db, op.graceful, op.keep, op.reason, op.now);
      RebootEarnsNone(db, op.graceful, op.keep, op.reason, op.now);
    }
  }

  lemma ResetEarnsNone(db: Db, run: Str, now: int)
    ensures Earned(db, RetryDeadLetter(db, run, now))
  {
  }

  lemma SweepEarnsNone(db: Db, now: int)
    ensures Earned(db, InterruptAll(db, now))
    ensures forall id | id in InterruptAll(db, now).steps && InterruptAll(db, now).steps[id].status.Succeeded? ::
      id in db.steps && db.steps[id].status.Succeeded?
  {
  }

  lemma WorkerEarnsNone(db: Db, worker: Str, now: int)
    ensures Earned(db, InterruptWorker(db, worker, now))
  {
  }

  lemma RecoverEarnsNone(db: Db, mid: Db, keep: bool, reason: Str, now: int)
    requires forall id | id in mid.steps && mid.steps[id].status.Succeeded? :: id in db.steps ==> db.steps[id].status.Succeeded?
    ensures Earned(db, Recover(mid, keep, reason, now))
  {
    var db1 := Recover(mid, keep, reason, now);
    forall id | id in db1.steps ensures db1.steps[id] == RecoveredStep(mid.steps[id], keep, reason, now) {
    }
  }

  // ---- what a success means ----------------------------------------------------------

  ghost predicate AllSucceeded(db: Db, run: Str) {
    forall id | id in db.steps && id.run == run :: db.steps[id].status.Succeeded?
  }

  // What the run reports is the output of a step of highest order.
  ghost predicate ReportsLast(db: Db, run: Str, output: Str) {
    exists id: StepId :: id.run == run && IsLast(db.steps, id) && db.steps[id].output == output
  }

  // No step of the run failed, was cancelled or was interrupted.
  ghost predicate Whole(db: Db, run: Str) {
    forall id | id in db.steps && id.run == run :: IsActive(db.steps[id].status) || db.steps[id].status.Succeeded?
  }

  lemma {:induction false} LastExists(steps: map<StepId, Step>, run: Str, ids: set<StepId>) returns (last: StepId)
    requires ids <= StepsOf(steps, run) && ids != {}
    ensures last in ids && forall j | j in ids :: steps[j].ord <= steps[last].ord
  {
    last :| last in ids;
    if ids != {last} {
      var other := LastExists(steps, run, ids - {last});
      if steps[other].ord > steps[last].ord { last := other; }
    }
  }

  lemma LastOutputIs(db: Db, run: Str, id: StepId)
    requires id in db.steps && id.run == run
    ensures ReportsLast(db, run, LastOutput(db.steps, run))
  {
    assert id in StepsOf(db.steps, run);
    var last := LastExists(db.steps, run, StepsOf(db.steps, run));
    forall j | j in db.steps && j.run == last.run ensures db.steps[j].ord <= db.steps[last].ord {
      assert j in StepsOf(db.steps, run);
    }
    assert IsLast(db.steps, last);
  }

  // The database a completion leaves just before it ends the run.
  ghost function BeforeEnd(db: Db, id: StepId, output: Str, now: int): Db
    requires id in db.steps
  {
    var db1 := db.(steps := SucceedStep(db.steps, id, output));
    if |StepsOf(db.steps, id.run)| == 1 then db1 else AfterUnblock(db1, id.run, id.name, now)
  }

  lemma {:induction false} OnlyStep(steps: map<StepId, Step>, id: StepId)
    requires id in steps && |StepsOf(steps, id.run)| == 1
    ensures forall j | j in steps && j.run == id.run :: j == id
  {
    var others := StepsOf(steps, id.run) - {id};
    assert id in StepsOf(steps, id.run) && |others| == 0;
    forall j | j in steps && j.run == id.run ensures j == id {
      assert j !in others;
    }
  }

  lemma SingleDone(db: Db, id: StepId, output: Str)
    requires Accepts(db, id) && |StepsOf(db.steps, id.run)| == 1
    ensures var db1 := db.(steps := SucceedStep(db.steps, id, output));
      AllSucceeded(db1, id.run) && ReportsLast(db1, id.run, output) && Whole(db, id.run)
  {
    OnlyStep(db.steps, id);
    var steps := SucceedStep(db.steps, id, output);
    assert IsLast(steps, id);
  }

  // Of a run with nothing left active, the steps that have not succeeded are those that
  // were neither active nor SUCCEEDED before.
  lemma UnblockedWhole(db: Db, id: StepId, output: Str, now: int)
    requires Accepts(db, id)
    ensures var db2 := AfterUnblock(db.(steps := SucceedStep(db.steps, id, output)), id.run, id.name, now);
      && id in db2.steps
      && (!AnyActive(db2.steps, id.run) ==> (AllSucceeded(db2, id.run) <==> Whole(db, id.run)))
      && (AnyFailed(db2.steps, id.run) <==> AnyFailed(db.steps, id.run))
  {
    var db1 := db.(steps := SucceedStep(db.steps, id, output));
    var db2 := AfterUnblock(db1, id.run, id.name, now);
    forall j | j in db.steps && j.run == id.run
      ensures j in db2.steps
      ensures db2.steps[j].status.Succeeded? <==> j == id || db.steps[j].status.Succeeded?
      ensures db2.steps[j].status.Failed? <==> db.steps[j].status.Failed?
      ensures j != id && IsActive(db.steps[j].status) ==> IsActive(db2.steps[j].status)
    {
      UnblockedRow(db1, id, now, j);
    }
  }

  // A completion that ends its run makes it SUCCEEDED exactly when no step has failed;
  // and then all steps have succeeded exactly when none had been cancelled or
  // interrupted before. The run reports the output of its last step in any case.
  lemma CompletionEnds(db: Db, id: StepId, output: Str, now: int)
    requires Accepts(db, id) && CompleteStep(db, id, output, now).value.1.runTerminal
    ensures var (db1, r) := CompleteStep(db, id, output, now).value;
      var mid := BeforeEnd(db, id, output, now);
      && (if AnyFailed(db.steps, id.run) then r.runStatus.Failed? else r.runStatus.Succeeded? && r.runError == Empty)
      && (AllSucceeded(mid, id.run) <==> Whole(db, id.run)) && ReportsLast(mid, id.run, r.runOutput)
      && db1 == FinishRun(mid, id.run, r.runStatus, r.runOutput, r.runError, now)
  {
    if |StepsOf(db.steps, id.run)| == 1 {
      OnlyStep(db.steps, id);
      SingleDone(db, id, output);
    } else {
      UnblockedWhole(db, id, output, now);
      LastOutputIs(BeforeEnd(db, id, output, now), id.run, id);
    }
  }

  // So a run of which nothing was lost ends well.
  lemma CompletionEndsWell(db: Db, id: StepId, output: Str, now: int)
    requires Accepts(db, id) && Whole(db, id.run) && CompleteStep(db, id, output, now).value.1.runTerminal
    ensures var (db1, r) := CompleteStep(db, id, output, now).value;
      && r.runStatus.Succeeded? && AllSucceeded(BeforeEnd(db, id, output, now), id.run)
      && ReportsLast(BeforeEnd(db, id, output, now), id.run, r.runOutput)
      && db1 == FinishRun(BeforeEnd(db, id, output, now), id.run, Succeeded, r.runOutput, Empty, now)
  {
    CompletionEnds(db, id, output, now);
  }

  lemma FinishedRow(db: Db, run: Str, status: Status, output: Str, error: Str, now: int)
    requires Live(db, run) && run in FinishRun(db, run, status, output, error, now).runs
    ensures var db1 := FinishRun(db, run, status, output, error, now);
      db1.steps == db.steps && db1.runs[run].status == status && db1.runs[run].output == output
  {
  }

  lemma CompletionGoesOn(db: Db, id: StepId, output: Str, now: int)
    requires CompleteStep(db, id, output, now).Some? && !CompleteStep(db, id, output, now).value.1.runTerminal
    ensures CompleteStep(db, id, output, now).value.0.runs == db.runs
  {
  }

  lemma FinishOthers(db: Db, run: Str, status: Status, output: Str, error: Str, now: int, r: Str)
    requires run in db.runs && r != run && r in FinishRun(db, run, status, output, error, now).runs
    ensures r in db.runs && FinishRun(db, run, status, output, error, now).runs[r] == db.runs[r]
  {
  }

  lemma CompletionRow(db: Db, id: StepId, output: Str, now: int, r: Str)
    requires CompleteStep(db, id, output, now).Some? && CompleteStep(db, id, output, now).value.1.runTerminal
    requires var db1 := CompleteStep(db, id, output, now).value.0;
      r in db.runs && r in db1.runs && db1.runs[r].status.Succeeded? && !db.runs[r].status.Succeeded?
    ensures var db1 := CompleteStep(db, id, output, now).value.0;
      r == id.run && Accepts(db, id) && !AnyFailed(db.steps, r)
      && (AllSucceeded(db1, r) <==> Whole(db, r)) && ReportsLast(db1, r, db1.runs[r].output)
  {
    var mid, result := BeforeEnd(db, id, output, now), CompleteStep(db, id, output, now).value.1;
    CompletionEnds(db, id, output, now);
    if r == id.run {
      FinishedRow(mid, r, result.runStatus, result.runOutput, result.runError, now);
    } else {
      FinishOthers(mid, id.run, result.runStatus, result.runOutput, result.runError, now, r);
    }
  }

  lemma SteadyTableOpSucceedsNone(db: Db, op: Op)
    requires op.LeasesReaped? || op.LeasesExtended? || op.EventEmitted? || op.QueuePaused? || op.QueueResumed? || StatusOp(op) || JournalOp(op)
    ensures NoneSucceeds(db, Apply(db, op))
  {
  }

  predicate SingleRunOp(op: Op) {
    || op.RunCancelled? || op.RunPaused? || op.RunResumed? || op.RunSnoozed? || op.RunsPurged?
    || op.DeadLetterDismissed? || op.DeadLetterRetried? || op.StepFailed?
  }

  lemma CancelRunSucceedsNone(db: Db, run: Str, now: int)
    ensures NoneSucceeds(db, CancelRun(db, run, now))
  {
  }

  lemma ResetSucceedsNone(db: Db, run: Str, now: int)
    ensures NoneSucceeds(db, RetryDeadLetter(db, run, now))
  {
  }

  lemma FailSucceedsNone(db: Db, id: StepId, error: Str, deadLetter: bool, now: int)
    ensures NoneSucceeds(db, FinalFail(db, id, error, deadLetter, now))
  {
  }

  lemma RunOpSucceedsNone(db: Db, op: Op)
    requires SingleRunOp(op)
    ensures NoneSucceeds(db, Apply(db, op))
  {
    if op.RunCancelled? {
      assert Apply(db, op) == CancelRun(db, op.run, op.now);
      CancelRunSucceedsNone(db, op.run, op.now);
    } else if op.DeadLetterRetried? {
      assert Apply(db, op) == RetryDeadLetter(db, op.run, op.now);
      ResetSucceedsNone(db, op.run, op.now);
    } else if op.StepFailed? {
      assert Apply(db, op) == FinalFail(db, op.id, op.error, op.deadLetter, op.now);
      FailSucceedsNone(db, op.id, op.error, op.deadLetter, op.now);
    }
  }

  lemma RecoverSucceedsNone(db: Db, mid: Db, keep: bool, reason: Str, now: int)
    requires NoneSucceeds(db, mid) && mid.runs.Keys <= db.runs.Keys
    ensures NoneSucceeds(db, Recover(mid, keep, reason, now))
  {
    var db1 := Recover(mid, keep, reason, now);
    forall r | r in db1.runs ensures db1.runs[r] == RecoveredRun(mid.runs[r], keep, reason, now) {
    }
  }

  lemma InterruptSucceedsNone(db: Db, now: int)
    ensures NoneSucceeds(db, InterruptAll(db, now)) && InterruptAll(db, now).runs.Keys <= db.runs.Keys
  {
  }

  lemma WorkerSucceedsNone(db: Db, worker: Str, now: int)
    ensures NoneSucceeds(db, InterruptWorker(db, worker, now))
  {
  }

  lemma RebootSucceedsNone(db: Db, graceful: bool, keep: bool, reason: Str, now: int)
    requires Rows(db)
    ensures NoneSucceeds(db, Reboot(db, graceful, keep, reason, now))
  {
    InterruptSucceedsNone(db, now);
    RecoverSucceedsNone(db, if graceful then InterruptAll(db, now) else db, keep, reason, now);
  }

  lemma SweepSucceedsNone(db: Db, op: Op)
    requires Rows(db) && (Sweeps(op) || op.Recovered? || op.Rebooted?)
    ensures NoneSucceeds(db, Apply(db, op))
  {
    if op.Interrupted? {
      assert Apply(db, op) == InterruptAll(db, op.now);
      InterruptSucceedsNone(db, op.now);
    } else if op.WorkerClosed? {
      assert Apply(db, op) == InterruptWorker(db, op.worker, op.now);
      WorkerSucceedsNone(db, op.worker, op.now);
    } else if op.Recovered? {
      assert Apply(db, op) == Recover(db, op.keep, op.reason, op.now);
      RecoverSucceedsNone(db, db, op.keep, op.reason, op.now);
    } else {
      assert Apply(db, op) == Reboot(db, op.graceful, op.keep, op.reason, op.now);
      RebootSucceedsNone(db, op.graceful, op.keep, op.reason, op.now);
    }
  }

  // Nothing but a completion makes a run SUCCEEDED.
  lemma OnlyCompletionSucceeds(db: Db, op: Op)
    requires Rows(db) && Enabled(db, op) && !op.StepDone?
    ensures NoneSucceeds(db, Apply(db, op))
  {
    if op.ClaimQueue? {
      ClaimAllKept(db, op.cands, op.c);
    } else if op.EnqueueRun? {
      if EnqueueOne(db, op.n, op.now).Enqueued? {
        EnqueueKept(db, op.n, op.now);
      }
    } else if Sweeps(op) || op.Recovered? || op.Rebooted? {
      SweepSucceedsNone(db, op);
    } else if SingleRunOp(op) {
      RunOpSucceedsNone(db, op);
    } else {
      SteadyTableOpSucceedsNone(db, op);
    }
  }

  // The operation that turns a run SUCCEEDED completes a step of it while none has
  // failed. Then all its steps have succeeded exactly when none had been cancelled or
  // interrupted; and its output is that of its step of highest order.
  lemma SuccessMeansAllDone(ops: seq<Op>, op: Op, run: Str)
    requires Legal(ops + [op])
    requires var db, db1 := Exec(ops), Apply(Exec(ops), op);
      run in db.runs && run in db1.runs && !db.runs[run].status.Succeeded? && db1.runs[run].status.Succeeded?
    ensures var db, db1 := Exec(ops), Apply(Exec(ops), op);
      && op.StepDone? && op.id.run == run && Accepts(db, op.id) && !AnyFailed(db.steps, run)
      && (AllSucceeded(db1, run) <==> Whole(db, run)) && ReportsLast(db1, run, db1.runs[run].output)
  {
    assert (ops + [op])[..|ops|] == ops;
    RowsAlways(ops);
    var db := Exec(ops);
    if !op.StepDone? {
      OnlyCompletionSucceeds(db, op);
    } else if CompleteStep(db, op.id, op.output, op.now).Some? {
      if CompleteStep(db, op.id, op.output, op.now).value.1.runTerminal {
        CompletionRow(db, op.id, op.output, op.now, run);
      } else {
        CompletionGoesOn(db, op.id, op.output, op.now);
      }
    }
  }

  // A live run that every sweep and boot spared is whole.
  lemma SparedIsWhole(ops: seq<Op>, run: Str)
    requires Legal(ops) && Undisrupted(ops, run) && Live(Exec(ops), run)
    ensures Whole(Exec(ops), run)
  {
    MovesAlways(ops, run);
    var db := Exec(ops);
    forall id | id in db.steps && id.run == run ensures IsActive(db.steps[id].status) || db.steps[id].status.Succeeded? {
      assert OnItsWay(db, id);
    }
  }

  // Through sweeps that hurt it, what keeps a live run from being whole is interrupted
  // steps alone.
  lemma UnhurtIsWhole(ops: seq<Op>, run: Str)
    requires Legal(ops) && Mended(ops, run) && Live(Exec(ops), run)
    ensures Whole(Exec(ops), run) <==> Unhurt(Exec(ops), run)
  {
    MovesThroughout(ops, run);
    var db := Exec(ops);
    forall id | id in db.steps && id.run == run
      ensures IsActive(db.steps[id].status) || db.steps[id].status.Succeeded? <==> !db.steps[id].status.Interrupted?
    {
      assert OnItsWay(db, id);
    }
  }
}
