// Workflows do not get stuck, run by run: a live run can move unless a step of it was
// interrupted, and sweeps and boots spare it exactly under conditions on its rows.

module Disruptions {
  import opened Names
  import opened Schema
  import opened Transitions
  import opened Enqueue
  import opened Machine
  import opened Frame
  import opened Progress

  // No step of the run was lost.
  ghost predicate Unhurt(db: Db, run: Str) {
    forall id | id in db.steps && id.run == run :: !db.steps[id].status.Interrupted?
  }

  // A live run is on its way and no step of it was lost.
  ghost predicate Going(db: Db, run: Str) {
    Live(db, run) ==> RunMoves(db, run) && Unhurt(db, run)
  }

  // ---- which sweeps keep a run going -------------------------------------------------

  predicate HeldBy(s: Step, worker: Str) {
    s.status.Running? && s.worker == worker
  }

  // If the worker executes the run, the run is RUNNING and has nothing active but what
  // the worker executes, so that it is interrupted with its steps.
  predicate WorkerSpares(db: Db, worker: Str, run: Str) {
    Live(db, run) && !db.runs[run].ephemeral ==>
      forall id | id in db.steps && id.run == run && HeldBy(db.steps[id], worker) ::
        && db.runs[run].status.Running?
        && forall j | j in db.steps && j.run == run && IsActive(db.steps[j].status) :: HeldBy(db.steps[j], worker)
  }

  // The run is RUNNING or no step of it is, as one may be once it is PAUSED.
  predicate SweepSpares(db: Db, run: Str) {
    Live(db, run) && !db.runs[run].status.Running? ==>
      forall id | id in db.steps && id.run == run :: !db.steps[id].status.Running?
  }

  // A boot that keeps interrupted work brings an INTERRUPTED run back only if its steps
  // are on their way; one that fails it finds no lost step in a run that lives on.
  ghost predicate BootSpares(db: Db, keep: bool, run: Str) {
    run in db.runs && !db.runs[run].ephemeral ==>
      if keep then
        db.runs[run].status.Interrupted? ==> RunMoves(db, run)
      else
        Live(db, run) && !db.runs[run].status.Running? ==>
          forall id | id in db.steps && id.run == run :: !LostStep(db.steps[id], false)
  }

  lemma WorkerHurts(db: Db, worker: Str, now: int, run: Str, id: StepId)
    requires Rows(db) && Live(db, run) && !db.runs[run].ephemeral
    requires id in db.steps && id.run == run && HeldBy(db.steps[id], worker)
    requires db.runs[run].status.Running? ==>
      exists j :: j in db.steps && j.run == run && IsActive(db.steps[j].status) && !HeldBy(db.steps[j], worker)
    ensures !Going(InterruptWorker(db, worker, now), run)
  {
    var db1 := InterruptWorker(db, worker, now);
    assert id in db1.steps && db1.steps[id].status.Interrupted?;
    if db.runs[run].status.Running? {
      var j :| j in db.steps && j.run == run && IsActive(db.steps[j].status) && !HeldBy(db.steps[j], worker);
      assert j in db1.steps && db1.steps[j] == db.steps[j];
    }
    assert Live(db1, run);
  }

  lemma WorkerEnds(db: Db, worker: Str, now: int, run: Str, id: StepId)
    requires Rows(db) && WorkerSpares(db, worker, run) && id in db.steps && id.run == run && HeldBy(db.steps[id], worker)
    ensures !Live(InterruptWorker(db, worker, now), run)
  {
    assert run in RunsOfWorker(db, worker);
  }

  lemma WorkerLeaves(db: Db, worker: Str, now: int, run: Str)
    requires Rows(db) && run in InterruptWorker(db, worker, now).runs
    requires forall id | id in db.steps && id.run == run :: !HeldBy(db.steps[id], worker)
    ensures Unhurt(db, run) ==> Unhurt(InterruptWorker(db, worker, now), run)
  {
  }

  // The sweep of a worker's leases keeps a run going exactly when it spares it.
  lemma WorkerSweepKeepsMoving(db: Db, worker: Str, now: int, run: Str)
    requires Rows(db) && RunShaped(db, run) && Going(db, run)
    ensures Going(InterruptWorker(db, worker, now), run) <==> WorkerSpares(db, worker, run)
  {
    var db1 := InterruptWorker(db, worker, now);
    if WorkerSpares(db, worker, run) {
      if Live(db1, run) {
        forall id | id in db.steps && id.run == run && HeldBy(db.steps[id], worker) ensures false {
          WorkerEnds(db, worker, now, run, id);
        }
        WorkerLeaves(db, worker, now, run);
        InterruptWorkerCalm(db, worker, now, run);
        MovesKept(db, db1, run);
      }
    } else {
      var id :| id in db.steps && id.run == run && HeldBy(db.steps[id], worker)
        && !(db.runs[run].status.Running?
             && forall j | j in db.steps && j.run == run && IsActive(db.steps[j].status) :: HeldBy(db.steps[j], worker));
      WorkerHurts(db, worker, now, run, id);
    }
  }

  // Whether it spares it or not: right after the sweep a live run has a step that
  // can execute exactly when it had one the worker did not hold.
  lemma RightAfterSweep(db: Db, worker: Str, now: int, run: Str)
    requires Rows(db) && Live(InterruptWorker(db, worker, now), run)
    ensures (exists id :: id in InterruptWorker(db, worker, now).steps && id.run == run
                          && IsStarted(InterruptWorker(db, worker, now).steps[id].status))
       <==> (exists id :: id in db.steps && id.run == run && IsStarted(db.steps[id].status) && !HeldBy(db.steps[id], worker))
  {
    var db1 := InterruptWorker(db, worker, now);
    forall id | id in db.steps && id.run == run
      ensures id in db1.steps
      ensures IsStarted(db1.steps[id].status) <==> IsStarted(db.steps[id].status) && !HeldBy(db.steps[id], worker)
    {
    }
  }

  lemma SweptRow(db: Db, now: int, run: Str, id: StepId)
    requires Rows(db) && run in InterruptAll(db, now).runs && id in db.steps && id.run == run
    ensures var db1 := InterruptAll(db, now);
      && id in db1.steps
      && (db1.steps[id].status.Interrupted? <==> db.steps[id].status.Running? || db.steps[id].status.Interrupted?)
  {
  }

  // The sweep of the whole process does so too.
  lemma SweepKeepsMoving(db: Db, now: int, run: Str)
    requires Rows(db) && RunShaped(db, run) && Going(db, run)
    ensures Going(InterruptAll(db, now), run) <==> SweepSpares(db, run)
  {
    var db1 := InterruptAll(db, now);
    if Live(db1, run) {
      InterruptCalm(db, now, run);
      MovesKept(db, db1, run);
      forall id | id in db.steps && id.run == run {
        SweptRow(db, now, run, id);
      }
    }
  }

  lemma BootedOnItsWay(db: Db, db1: Db, keep: bool, run: Str, id: StepId)
    requires BootedRows(db, db1, keep, run) && id in db.steps && id.run == run
    ensures id in db1.steps && !db1.steps[id].status.Interrupted?
    ensures keep ==> (OnItsWay(db1, id) <==> OnItsWay(db, id))
    ensures !keep ==> (OnItsWay(db1, id) <==> OnItsWay(db, id) && !LostStep(db.steps[id], false))
  {
    BootedDeps(db, db1, keep, run, id);
  }

  lemma BootedMoves(db: Db, db1: Db, keep: bool, run: Str)
    requires BootedRows(db, db1, keep, run)
    ensures Unhurt(db1, run)
    ensures keep ==> (RunMoves(db1, run) <==> RunMoves(db, run))
    ensures !keep && RunMoves(db, run) ==>
      (RunMoves(db1, run) <==> forall id | id in db.steps && id.run == run :: !LostStep(db.steps[id], false))
  {
    forall id | id in db.steps && id.run == run
      ensures id in db1.steps && !db1.steps[id].status.Interrupted?
      ensures db1.steps[id].status.Succeeded? <==> db.steps[id].status.Succeeded?
      ensures keep ==> (OnItsWay(db1, id) <==> OnItsWay(db, id))
      ensures !keep ==> (OnItsWay(db1, id) <==> OnItsWay(db, id) && !LostStep(db.steps[id], false))
    {
      BootedOnItsWay(db, db1, keep, run, id);
    }
  }

  // A boot leaves a run going, hurt before or not, exactly when it spares it.
  lemma BootKeepsMoving(db: Db, graceful: bool, keep: bool, reason: Str, now: int, run: Str)
    requires Rows(db) && Moving(db, run)
    ensures Going(Reboot(db, graceful, keep, reason, now), run) <==> BootSpares(db, keep, run)
  {
    var db1 := Reboot(db, graceful, keep, reason, now);
    BootRun(db, graceful, keep, reason, now, run);
    if run in db1.runs {
      BootShape(db, graceful, keep, reason, now, run);
      BootedMoves(db, db1, keep, run);
    }
  }

  ghost predicate HasQueued(db: Db, run: Str) {
    exists id :: id in db.steps && id.run == run && db.steps[id].status.Queued?
  }

  // The runs a boot leaves FAILED with QUEUED steps are those that were RUNNING,
  // INTERRUPTED or FAILED and had QUEUED steps: no QUEUED step is touched.
  lemma QueuedInFailedRuns(db: Db, graceful: bool, reason: Str, now: int, run: Str)
    requires Rows(db) && run in db.runs
    ensures var db1, s := Reboot(db, graceful, false, reason, now), db.runs[run].status;
      HasQueued(db1, run) && run in db1.runs && db1.runs[run].status.Failed?
      <==> !db.runs[run].ephemeral && (s.Running? || s.Interrupted? || s.Failed?) && HasQueued(db, run)
  {
    var db1 := Reboot(db, graceful, false, reason, now);
    BootRun(db, graceful, false, reason, now, run);
    if run in db1.runs {
      BootShape(db, graceful, false, reason, now, run);
      forall id | id in db.steps && id.run == run
        ensures id in db1.steps && (db1.steps[id].status.Queued? <==> db.steps[id].status.Queued?)
      {
      }
    }
  }

  // ---- nothing else interrupts a step --------------------------------------------------

  ghost predicate HurtsNone(db: Db, db1: Db) {
    forall id {:trigger db1.steps[id]} | id in db1.steps && db1.steps[id].status.Interrupted? ::
      id in db.steps && db.steps[id].status.Interrupted?
  }

  lemma SteadyHurtsNone(db: Db, db1: Db)
    requires Steady(db, db1)
    ensures HurtsNone(db, db1)
  {
    forall id | id in db1.steps && db1.steps[id].status.Interrupted? ensures id in db.steps && db.steps[id].status.Interrupted? {
      assert StepStays(db.steps[id], db1.steps[id]);
    }
  }

  lemma {:induction false} ClaimAllHurtsNone(db: Db, cands: seq<Candidate>, c: Claimer)
    ensures HurtsNone(db, ClaimAll(db, cands, c))
    decreases |cands|
  {
    if cands != [] {
      ClaimAllHurtsNone(db, cands[..|cands| - 1], c);
    }
  }

  lemma EnqueueHurtsNone(db: Db, n: NewRun, now: int)
    requires WellFormed(n) && EnqueueOne(db, n, now).Enqueued?
    ensures HurtsNone(db, EnqueueOne(db, n, now).db)
  {
    var a, inserted := EnqueueParts(db, n, now);
    var m := Stamped(n, db.next + 1);
    StampedWell(n, db.next + 1);
    PrepareSteady(Numbered(db, n), a, now);
    SteadyHurtsNone(Numbered(db, n), a);
    if inserted {
      StrategySteady(Inserted(a, m), m, now);
      SteadyHurtsNone(Inserted(a, m), EnqueueOne(db, n, now).db);
      InsertHurtsNone(a, m);
    }
  }

  lemma InsertHurtsNone(db: Db, n: NewRun)
    requires forall name | name in n.steps :: WellFormedStep(n.steps[name])
    ensures HurtsNone(db, Inserted(db, n))
  {
    forall id: StepId | id.run == n.id && id.name in n.steps ensures !n.steps[id.name].status.Interrupted? {
      assert WellFormedStep(n.steps[id.name]);
    }
  }

  lemma OpHurtsNone(db: Db, op: Op)
    requires Enabled(db, op) && !Sweeps(op) && !Boots(op)
    ensures HurtsNone(db, Apply(db, op))
  {
    if op.EnqueueRun? {
      if EnqueueOne(db, op.n, op.now).Enqueued? {
        EnqueueHurtsNone(db, op.n, op.now);
      }
    } else if op.ClaimQueue? {
      ClaimAllHurtsNone(db, op.cands, op.c);
    } else if op.DeadLetterRetried? {
      assert Apply(db, op) == RetryDeadLetter(db, op.run, op.now);
    } else {
      OpSteady(db, op);
      SteadyHurtsNone(db, Apply(db, op));
    }
  }

  // ---- over whole runs of the store --------------------------------------------------

  // The boots of a history bring the run back only as one that can move.
  ghost predicate Mended(ops: seq<Op>, run: Str) {
    ops == [] ||
    (var front, op := ops[..|ops| - 1], ops[|ops| - 1];
     Mended(front, run) && (Boots(op) ==> BootSpares(Exec(front), op.keep, run)))
  }

  lemma OpKeepsMoving(db: Db, op: Op, run: Str)
    requires Rows(db) && Enabled(db, op) && (run in db.runs ==> RunShaped(db, run)) && Moving(db, run)
    requires Boots(op) ==> BootSpares(db, op.keep, run)
    ensures Moving(Apply(db, op), run)
  {
    if Boots(op) {
      BootOf(db, op);
      BootKeepsMoving(db, op.Rebooted? && op.graceful, op.keep, op.reason, op.now, run);
    } else {
      OpCarries(db, op);
      if run in Apply(db, op).runs {
        assert Carried(db, Apply(db, op), run);
      }
    }
  }

  // Through every sweep.
  lemma {:induction false} MovesThroughout(ops: seq<Op>, run: Str)
    requires Legal(ops) && Mended(ops, run)
    ensures Moving(Exec(ops), run)
  {
    if ops != [] {
      var front := ops[..|ops| - 1];
      MovesThroughout(front, run);
      RowsAlways(front);
      if run in Exec(front).runs {
        ShapedAlways(front, run);
      }
      OpKeepsMoving(Exec(front), ops[|ops| - 1], run);
    }
  }

  // A run that is not over has a step that is queued, executing or suspended, unless
  // a step of it was interrupted.
  lemma StuckOnlyIfInterrupted(ops: seq<Op>, run: Str)
    requires Legal(ops) && Mended(ops, run) && Live(Exec(ops), run) && Unhurt(Exec(ops), run)
    ensures exists id :: id in Exec(ops).steps && id.run == run && IsStarted(Exec(ops).steps[id].status)
  {
    MovesThroughout(ops, run);
    ShapedAlways(ops, run);
    LiveRunsCanMove(Exec(ops), run);
  }

  // The sweeps and boots of a history spare the run.
  ghost predicate Spares(db: Db, op: Op, run: Str) {
    if op.Interrupted? then SweepSpares(db, run)
    else if op.WorkerClosed? then WorkerSpares(db, op.worker, run)
    else if Boots(op) then BootSpares(db, op.keep, run)
    else true
  }

  ghost predicate Undisrupted(ops: seq<Op>, run: Str) {
    ops == [] ||
    (var front, op := ops[..|ops| - 1], ops[|ops| - 1];
     Undisrupted(front, run) && Spares(Exec(front), op, run))
  }

  lemma DisruptionKeepsGoing(db: Db, op: Op, run: Str)
    requires Rows(db) && (run in db.runs ==> RunShaped(db, run)) && Going(db, run)
    requires Sweeps(op) || Boots(op)
    ensures Going(Apply(db, op), run) <==> Spares(db, op, run)
  {
    if Boots(op) {
      BootOf(db, op);
      BootKeepsMoving(db, op.Rebooted? && op.graceful, op.keep, op.reason, op.now, run);
    } else {
      SweepKeepsGoing(db, op, run);
    }
  }

  lemma SweepKeepsGoing(db: Db, op: Op, run: Str)
    requires Rows(db) && (run in db.runs ==> RunShaped(db, run)) && Going(db, run) && Sweeps(op)
    ensures Going(Apply(db, op), run) <==> Spares(db, op, run)
  {
    if op.Interrupted? {
      assert Apply(db, op) == InterruptAll(db, op.now);
      if run in db.runs {
        SweepKeepsMoving(db, op.now, run);
      }
    } else {
      assert Apply(db, op) == InterruptWorker(db, op.worker, op.now);
      if run in db.runs {
        WorkerSweepKeepsMoving(db, op.worker, op.now, run);
      }
    }
  }

  lemma OpKeepsGoing(db: Db, op: Op, run: Str)
    requires Rows(db) && Enabled(db, op) && (run in db.runs ==> RunShaped(db, run)) && Going(db, run) && !Sweeps(op) && !Boots(op)
    ensures Going(Apply(db, op), run)
  {
    OpKeepsMoving(db, op, run);
    OpHurtsNone(db, op);
    if Live(Apply(db, op), run) {
      OpKeepsUnhurt(db, op, run);
    }
  }

  lemma OpKeepsUnhurt(db: Db, op: Op, run: Str)
    requires Rows(db) && Enabled(db, op) && !Sweeps(op) && !Boots(op) && HurtsNone(db, Apply(db, op))
    requires Live(Apply(db, op), run) && Going(db, run)
    ensures Unhurt(Apply(db, op), run)
  {
    if run in db.runs && !Live(db, run) {
      OpRevivesReset(db, op, run);
    }
  }

  // Nothing but a dead-letter retry brings a run back, and it resets every step.
  lemma OpRevivesReset(db: Db, op: Op, run: Str)
    requires Rows(db) && Enabled(db, op) && !Sweeps(op) && !Boots(op) && run in db.runs && !Live(db, run) && Live(Apply(db, op), run)
    ensures Unhurt(Apply(db, op), run)
  {
    if op.ClaimQueue? {
      ClaimAllRevivesNone(db, op.cands, op.c);
    } else if op.EnqueueRun? {
      if EnqueueOne(db, op.n, op.now).Enqueued? {
        EnqueueRevivesNone(db, op.n, op.now, run);
      }
    } else if op.DeadLetterRetried? {
      assert Apply(db, op) == RetryDeadLetter(db, op.run, op.now);
    } else {
      OpSteady(db, op);
    }
  }

  lemma {:induction false} ClaimAllRevivesNone(db: Db, cands: seq<Candidate>, c: Claimer)
    requires Rows(db)
    ensures forall r | Live(ClaimAll(db, cands, c), r) :: Live(db, r)
    decreases |cands|
  {
    if cands != [] {
      ClaimAllRevivesNone(db, cands[..|cands| - 1], c);
    }
  }

  lemma EnqueueRevivesNone(db: Db, n: NewRun, now: int, run: Str)
    requires Rows(db) && WellFormed(n) && n.id !in db.runs && EnqueueOne(db, n, now).Enqueued? && run in db.runs
    requires Live(EnqueueOne(db, n, now).db, run)
    ensures Live(db, run)
  {
    var a, inserted := EnqueueParts(db, n, now);
    var m := Stamped(n, db.next + 1);
    PrepareSteady(Numbered(db, n), a, now);
    if inserted {
      StrategySteady(Inserted(a, m), m, now);
    }
  }

  lemma {:induction false} MovesAlways(ops: seq<Op>, run: Str)
    requires Legal(ops) && Undisrupted(ops, run)
    ensures Going(Exec(ops), run)
  {
    if ops != [] {
      var front, op := ops[..|ops| - 1], ops[|ops| - 1];
      MovesAlways(front, run);
      RowsAlways(front);
      if run in Exec(front).runs {
        ShapedAlways(front, run);
      }
      if Sweeps(op) || Boots(op) {
        DisruptionKeepsGoing(Exec(front), op, run);
      } else {
        OpKeepsGoing(Exec(front), op, run);
      }
    }
  }

  // A run that is not over and that every sweep and boot spared has a step that is
  // queued, executing or suspended.
  lemma NoStuckWorkflow(ops: seq<Op>, run: Str)
    requires Legal(ops) && Undisrupted(ops, run) && Live(Exec(ops), run)
    ensures exists id :: id in Exec(ops).steps && id.run == run && IsStarted(Exec(ops).steps[id].status)
  {
    MovesAlways(ops, run);
    ShapedAlways(ops, run);
    LiveRunsCanMove(Exec(ops), run);
  }

  lemma SessionSpares(db: Db, op: Op, run: Str)
    requires SessionOp(op) && (op.Rebooted? ==> op.keep && Settled(db))
    ensures Spares(db, op, run)
  {
  }

  // Processes that boot with interrupted work kept and are not swept in between need
  // no further condition.
  lemma {:induction false} SessionsAreUndisrupted(ops: seq<Op>, run: Str)
    requires Legal(ops) && (forall op | op in ops :: SessionOp(op)) && forall op | op in ops && op.Rebooted? :: op.keep
    ensures Undisrupted(ops, run)
  {
    if ops != [] {
      var front, op := ops[..|ops| - 1], ops[|ops| - 1];
      assert op in ops && forall o | o in front :: o in ops;
      SessionsAreUndisrupted(front, run);
      SessionsSettle(front);
      SessionSpares(Exec(front), op, run);
    }
  }
}
