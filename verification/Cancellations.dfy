// Cancelling a run: what it leaves of the run's steps, in whichever of its three
// forms, and that nothing of the run starts again.

module Cancellations {
  import opened Names
  import opened Schema
  import opened Transitions
  import opened Enqueue
  import opened Machine
  import opened Frame
  import opened Progress
  import opened Outcomes
  import opened Unique
  import opened Strategies

  // ---- one cancellation ---------------------------------------------------------------------

  // The run is CANCELLED, and frees its unique key.
  predicate CancelledAs(r: Run, r1: Run, now: int) {
    r1 == r.(status := Cancelled, completedAt := now, uniqueKey := Empty)
  }

  // Everything about other runs is as it was.
  ghost predicate Elsewhere(db: Db, db1: Db, run: Str) {
    && (forall r | r != run :: (r in db1.runs <==> r in db.runs) && (r in db.runs ==> db1.runs[r] == db.runs[r]))
    && (forall id: StepId | id.run != run :: (id in db1.steps <==> id in db.steps) && (id in db.steps ==> db1.steps[id] == db.steps[id]))
    && (forall id: StepId | id.run != run :: Journal(db1, id) == Journal(db, id))
    && db1.next == db.next && db1.pausedQueues == db.pausedQueues
  }

  ghost predicate Gone(db: Db, run: Str) {
    && run !in db.runs && (forall id | id in db.steps :: id.run != run)
    && forall id: StepId | id.run == run :: Journal(db, id) == []
  }

  // Its steps that had not started or were suspended are CANCELLED; with `running` the
  // executing ones are too. The other rows, and all journals, are as they were.
  ghost predicate StepsCancelled(db: Db, db1: Db, run: Str, running: bool) {
    && db1.steps.Keys == db.steps.Keys && db1.journal == db.journal
    && forall id | id in db.steps && id.run == run ::
         var s := db.steps[id].status;
         db1.steps[id] ==
           if s.Queued? || s.Blocked? || s.Suspended? || (running && s.Running?) then db.steps[id].(status := Cancelled) else db.steps[id]
  }

  lemma RowCancelled(db: Db, run: Str, running: bool, now: int)
    requires run in db.runs
    ensures var db1 := CancelRow(db, run, running, now);
      && run in db1.runs && CancelledAs(db.runs[run], db1.runs[run], now)
      && StepsCancelled(db, db1, run, running) && Elsewhere(db, db1, run)
  {
  }

  lemma RunDeleted(db: Db, run: Str)
    ensures Gone(DeleteRuns(db, {run}), run) && Elsewhere(db, DeleteRuns(db, {run}), run)
  {
  }

  // Nothing of the run is left to start.
  ghost predicate Stopped(db: Db, run: Str) {
    || Gone(db, run)
    || (run in db.runs && db.runs[run].status.Cancelled?
        && forall id | id in db.steps && id.run == run ::
             !db.steps[id].status.Queued? && !db.steps[id].status.Blocked? && !db.steps[id].status.Suspended?)
  }

  // A client's cancellation stops a live run and spares what executes; an ephemeral run
  // goes, and any other call does nothing.
  lemma CancelStops(db: Db, run: Str, now: int)
    ensures var db1 := CancelRun(db, run, now);
      if !(run in db.runs && !IsTerminal(db.runs[run].status)) then db1 == db
      else
        && Stopped(db1, run) && Elsewhere(db, db1, run)
        && if db.runs[run].ephemeral then Gone(db1, run)
           else run in db1.runs && CancelledAs(db.runs[run], db1.runs[run], now) && StepsCancelled(db, db1, run, false)
  {
    if Live(db, run) {
      VictimStops(db, run, now);
    }
  }

  // So does a strategy's.
  lemma VictimStops(db: Db, run: Str, now: int)
    requires run in db.runs
    ensures var db1 := CancelOrDelete(db, run, now);
      && Stopped(db1, run) && Elsewhere(db, db1, run)
      && if db.runs[run].ephemeral then Gone(db1, run)
         else run in db1.runs && CancelledAs(db.runs[run], db1.runs[run], now) && StepsCancelled(db, db1, run, false)
  {
    if db.runs[run].ephemeral {
      RunDeleted(db, run);
    } else {
      RowCancelled(db, run, false, now);
      StopsRun(db, CancelRow(db, run, false, now), run, false);
    }
  }

  lemma StopsRun(db: Db, db1: Db, run: Str, running: bool)
    requires StepsCancelled(db, db1, run, running) && run in db1.runs && db1.runs[run].status.Cancelled?
    ensures Stopped(db1, run) && (running ==> Halted(db1, run))
  {
    forall id | id in db1.steps && id.run == run
      ensures !db1.steps[id].status.Queued? && !db1.steps[id].status.Blocked? && !db1.steps[id].status.Suspended?
      ensures running ==> !IsActive(db1.steps[id].status)
    {
      assert id in db.steps;
    }
  }

  // No step of the run executes either.
  ghost predicate Halted(db: Db, run: Str) {
    Stopped(db, run) && forall id | id in db.steps && id.run == run :: !db.steps[id].status.Running?
  }

  // ---- an enqueue ---------------------------------------------------------------------------

  lemma StaysStopped(db: Db, db1: Db, run: Str, other: Str)
    requires Elsewhere(db, db1, other) && run != other
    ensures Gone(db, run) ==> Gone(db1, run)
    ensures Stopped(db, run) ==> Stopped(db1, run)
    ensures Halted(db, run) ==> Halted(db1, run)
  {
  }

  lemma VictimStaysHalted(db: Db, run: Str, now: int)
    ensures Halted(db, run) ==> Halted(CancelOrDelete(db, run, now), run)
  {
    if run in db.runs {
      VictimStops(db, run, now);
    }
  }

  // Strategies stop all of their victims, and what was stopped before stays so.
  lemma {:induction false} AllStop(db: Db, runs: seq<Str>, now: int, r: Str)
    ensures var db1 := CancelAll(db, runs, now);
      && (r in runs && r in db.runs ==> Stopped(db1, r))
      && (Stopped(db, r) ==> Stopped(db1, r)) && (Halted(db, r) ==> Halted(db1, r))
      && (r in db.runs ==> r in db1.runs || Gone(db1, r))
    decreases |runs|
  {
    if runs != [] {
      var front, last := runs[..|runs| - 1], runs[|runs| - 1];
      var mid := CancelAll(db, front, now);
      AllStop(db, front, now, r);
      assert r in runs ==> r in front || r == last;
      if last in mid.runs {
        VictimStops(mid, last, now);
        VictimStaysHalted(mid, last, now);
        if r != last {
          StaysStopped(mid, CancelOrDelete(mid, last, now), r, last);
        }
      }
    }
  }

  lemma InsertElsewhere(db: Db, n: NewRun)
    ensures Elsewhere(db, Inserted(db, n), n.id)
  {
  }

  // Every run an enqueue reports as cancelled is stopped.
  lemma EnqueueStops(db: Db, n: NewRun, now: int, out: Outcome, r: Str)
    requires out == EnqueueOne(db, n, now) && out.Enqueued? && n.id !in db.runs && r in out.replaced
    ensures Stopped(out.db, r)
  {
    var db0, m := Numbered(db, n), Stamped(n, db.next + 1);
    EnqueueResolves(db, n, now);
    ResolveStops(db0, m, now, out, r);
  }

  lemma InsertStops(db: Db, n: NewRun, replaced: seq<Str>, now: int, out: Outcome, r: Str)
    requires out == InsertOne(db, n, replaced, now) && out.Enqueued? && n.id !in db.runs
    requires forall x | x in replaced :: x in db.runs && Halted(db, x)
    ensures r in out.replaced ==> Stopped(out.db, r)
    ensures r in replaced ==> r in out.replaced && Halted(out.db, r)
  {
    var db1 := Inserted(db, n);
    var victims := StrategyVictims(db1, n);
    InsertElsewhere(db, n);
    if r in replaced {
      StaysStopped(db, db1, r, n.id);
    }
    if r in victims {
      VictimsAreRuns(db1, n, r);
    }
    AllStop(db1, victims, now, r);
  }

  lemma VictimsAreRuns(db: Db, n: NewRun, r: Str)
    requires r in StrategyVictims(db, n)
    ensures r in db.runs
  {
    VictimsDistinct(db.runs, BySeq(db.runs, Contenders(db, n.run.key)), n.policy.limit, n.policy.strategy);
  }

  lemma ResolveStops(db: Db, n: NewRun, now: int, out: Outcome, r: Str)
    requires out == Resolve(db, n, now) && out.Enqueued? && n.id !in db.runs && r in out.replaced
    ensures Stopped(out.db, r)
  {
    if n.run.uniqueKey != Empty && UniqueHolders(db, n.run.workflow, n.run.uniqueKey) != {} && n.conflict.Replace? {
      var existing := Holder(UniqueHolders(db, n.run.workflow, n.run.uniqueKey));
      var db1 := CancelRow(db, existing, true, now);
      RowCancelled(db, existing, true, now);
      StopsRun(db, db1, existing, true);
      InsertStops(db1, n, [existing], now, out, r);
    } else {
      InsertStops(db, n, [], now, out, r);
    }
  }

  lemma ResolvedHalts(db: Db, n: NewRun, now: int, out: Outcome, r: Str)
    requires out == Resolve(db, n, now) && out.Enqueued? && n.id !in db.runs && UniqueInv(db)
    requires n.conflict.Replace? && n.run.uniqueKey != Empty && r in db.runs
    requires db.runs[r].workflow == n.run.workflow && db.runs[r].uniqueKey == n.run.uniqueKey
    ensures r in out.replaced && Halted(out.db, r)
  {
    var holders := UniqueHolders(db, n.run.workflow, n.run.uniqueKey);
    assert r in holders && Holder(holders) == r;
    RowCancelled(db, r, true, now);
    StopsRun(db, CancelRow(db, r, true, now), r, true);
    InsertStops(CancelRow(db, r, true, now), n, [r], now, out, r);
  }

  // The run whose unique key an enqueue takes over is halted, executing steps included.
  lemma ReplacedHalts(db: Db, n: NewRun, now: int, out: Outcome, r: Str)
    requires out == EnqueueOne(db, n, now) && out.Enqueued? && n.id !in db.runs && UniqueInv(db)
    requires n.conflict.Replace? && n.run.uniqueKey != Empty && r in db.runs
    requires db.runs[r].workflow == n.run.workflow && db.runs[r].uniqueKey == n.run.uniqueKey
    ensures r in out.replaced && Halted(out.db, r)
  {
    EnqueueResolves(db, n, now);
    ResolvedHalts(Numbered(db, n), Stamped(n, db.next + 1), now, out, r);
  }

  // ---- and ever after -----------------------------------------------------------------------

  // The run is CANCELLED and none of its steps is active or interrupted.
  ghost predicate Over(db: Db, run: Str) {
    && run in db.runs && db.runs[run].status.Cancelled?
    && forall id | id in db.steps && id.run == run :: !IsActive(db.steps[id].status) && !db.steps[id].status.Interrupted?
  }

  lemma SteadyKeepsOver(db: Db, db1: Db, run: Str)
    requires Steady(db, db1) && Over(db, run) && run in db1.runs
    ensures Over(db1, run)
  {
  }

  lemma {:induction false} ClaimsKeepOver(db: Db, cands: seq<Candidate>, c: Claimer, run: Str)
    requires Over(db, run)
    ensures Over(ClaimAll(db, cands, c), run)
    decreases |cands|
  {
    if cands != [] {
      ClaimsKeepOver(db, cands[..|cands| - 1], c, run);
    }
  }

  lemma EnqueueKeepsOver(db: Db, n: NewRun, now: int, run: Str)
    requires Over(db, run) && n.id !in db.runs && EnqueueOne(db, n, now).Enqueued? && run in EnqueueOne(db, n, now).db.runs
    ensures Over(EnqueueOne(db, n, now).db, run)
  {
    var a, inserted := EnqueueParts(db, n, now);
    var db0, m := Numbered(db, n), Stamped(n, db.next + 1);
    PrepareSteady(db0, a, now);
    if inserted {
      assert Over(a, run) && run != m.id;
      StrategySteady(Inserted(a, m), m, now);
      SteadyKeepsOver(Inserted(a, m), EnqueueOne(db, n, now).db, run);
    }
  }

  lemma SweepKeepsOver(db: Db, now: int, run: Str)
    requires Rows(db) && Over(db, run) && run in InterruptAll(db, now).runs
    ensures Over(InterruptAll(db, now), run)
  {
  }

  lemma WorkerSweepKeepsOver(db: Db, worker: Str, now: int, run: Str)
    requires Rows(db) && Over(db, run) && run in InterruptWorker(db, worker, now).runs
    ensures Over(InterruptWorker(db, worker, now), run)
  {
    var db1 := InterruptWorker(db, worker, now);
    forall id | id in db1.steps && id.run == run ensures !IsActive(db1.steps[id].status) && !db1.steps[id].status.Interrupted? {
      InterruptWorkerRow(db, worker, now, id);
    }
  }

  lemma RetryKeepsOver(db: Db, dead: Str, now: int, run: Str)
    requires Over(db, run)
    ensures Over(RetryDeadLetter(db, dead, now), run)
  {
  }

  lemma BootKeepsOver(db: Db, graceful: bool, keep: bool, reason: Str, now: int, run: Str)
    requires Rows(db) && Over(db, run) && run in Reboot(db, graceful, keep, reason, now).runs
    ensures Over(Reboot(db, graceful, keep, reason, now), run)
  {
    var db1 := Reboot(db, graceful, keep, reason, now);
    BootRun(db, graceful, keep, reason, now, run);
    forall id | id in db1.steps && id.run == run ensures !IsActive(db1.steps[id].status) && !db1.steps[id].status.Interrupted? {
      BootRow(db, graceful, keep, reason, now, id);
    }
  }

  lemma SweepOpKeepsOver(db: Db, op: Op, run: Str)
    requires Rows(db) && Sweeps(op) && Over(db, run) && run in Apply(db, op).runs
    ensures Over(Apply(db, op), run)
  {
    if op.Interrupted? {
      assert Apply(db, op) == InterruptAll(db, op.now);
      SweepKeepsOver(db, op.now, run);
    } else {
      assert Apply(db, op) == InterruptWorker(db, op.worker, op.now);
      WorkerSweepKeepsOver(db, op.worker, op.now, run);
    }
  }

  lemma RevivalKeepsOver(db: Db, op: Op, run: Str)
    requires Rows(db) && Revives(op) && Over(db, run) && run in Apply(db, op).runs
    ensures Over(Apply(db, op), run)
  {
    if op.DeadLetterRetried? {
      assert Apply(db, op) == RetryDeadLetter(db, op.run, op.now);
      RetryKeepsOver(db, op.run, op.now, run);
    } else {
      BootOf(db, op);
      BootKeepsOver(db, op.Rebooted? && op.graceful, op.keep, op.reason, op.now, run);
    }
  }

  lemma OpKeepsOver(db: Db, op: Op, run: Str)
    requires Rows(db) && Enabled(db, op) && Over(db, run) && run in Apply(db, op).runs
    ensures Over(Apply(db, op), run)
  {
    if op.ClaimQueue? {
      ClaimsKeepOver(db, op.cands, op.c, run);
    } else if op.EnqueueRun? {
      if EnqueueOne(db, op.n, op.now).Enqueued? {
        EnqueueKeepsOver(db, op.n, op.now, run);
      }
    } else if Sweeps(op) {
      SweepOpKeepsOver(db, op, run);
    } else if Revives(op) {
      RevivalKeepsOver(db, op, run);
    } else {
      OpSteady(db, op);
      SteadyKeepsOver(db, Apply(db, op), run);
    }
  }

  lemma {:induction false} StaysOver(ops: seq<Op>, i: nat, run: Str)
    requires Legal(ops) && i <= |ops| && Survives(ops, i, run) && Over(Exec(ops[..i]), run)
    ensures Over(Exec(ops), run)
  {
    if i == |ops| {
      assert ops[..i] == ops;
    } else {
      var front := ops[..|ops| - 1];
      assert front[..i] == ops[..i];
      StaysOver(front, i, run);
      RowsAlways(front);
      OpKeepsOver(Exec(front), ops[|ops| - 1], run);
    }
  }

  // Once a live run is cancelled of which no step executes or was interrupted, no step
  // of it is ever active again, whatever happens, as long as its row is there.
  lemma CancelledForGood(ops: seq<Op>, i: nat, run: Str)
    requires Legal(ops) && i < |ops| && ops[i].RunCancelled? && ops[i].run == run && Live(Exec(ops[..i]), run)
    requires forall id | id in Exec(ops[..i]).steps && id.run == run ::
      !Exec(ops[..i]).steps[id].status.Running? && !Exec(ops[..i]).steps[id].status.Interrupted?
    requires Survives(ops, i + 1, run)
    ensures forall id | id in Exec(ops).steps && id.run == run :: !IsActive(Exec(ops).steps[id].status)
  {
    var db := Exec(ops[..i]);
    assert ops[..i + 1][..i] == ops[..i];
    CancelStops(db, run, ops[i].now);
    SurvivesUntil(ops, i + 1, run);
    var db1 := Exec(ops[..i + 1]);
    assert db1 == CancelRun(db, run, ops[i].now);
    forall id | id in db1.steps && id.run == run ensures !IsActive(db1.steps[id].status) && !db1.steps[id].status.Interrupted? {
      assert id in db.steps;
    }
    StaysOver(ops, i + 1, run);
  }

  lemma {:induction false} SurvivesUntil(ops: seq<Op>, i: nat, run: Str)
    requires i <= |ops| && Survives(ops, i, run)
    ensures run in Exec(ops[..i]).runs
  {
    if i == |ops| {
      assert ops[..i] == ops;
    } else {
      assert ops[..|ops| - 1][..i] == ops[..i];
      SurvivesUntil(ops[..|ops| - 1], i, run);
    }
  }

  // A boot that keeps interrupted work does not ask what became of the run: it queues
  // the steps of a CANCELLED run that executed or were interrupted, and no others.
  lemma BootRequeuesCancelled(db: Db, graceful: bool, reason: Str, now: int, id: StepId)
    requires Rows(db) && id in db.steps && db.runs[id.run].status.Cancelled? && !db.runs[id.run].ephemeral
    ensures var db1 := Reboot(db, graceful, true, reason, now);
      && id in db1.steps && id.run in db1.runs && db1.runs[id.run].status.Cancelled?
      && (IsActive(db1.steps[id].status) && !IsActive(db.steps[id].status) <==> db.steps[id].status.Interrupted?)
      && (db1.steps[id].status.Queued? <==> db.steps[id].status.Queued? || db.steps[id].status.Running? || db.steps[id].status.Interrupted?)
  {
    BootRow(db, graceful, true, reason, now, id);
    BootRun(db, graceful, true, reason, now, id.run);
  }
}
