// Dependency safety and progress, run by run, over every reachable state.

module Progress {
  import opened Names
  import opened Dag
  import opened Schema
  import opened Transitions
  import opened Enqueue
  import opened Machine
  import opened Frame

  // A step that may execute, or resume, has every dependency behind it.
  ghost predicate DepsSafe(db: Db, id: StepId)
    requires id in db.steps
  {
    IsStarted(db.steps[id].status) ==> DepsSucceeded(db.steps, id)
  }

  // The steps of a live run are on their way, or interrupted: none failed or was
  // cancelled, and none is blocked without reason.
  ghost predicate OnItsWay(db: Db, id: StepId)
    requires id in db.steps
  {
    && (IsActive(db.steps[id].status) || db.steps[id].status.Interrupted? || db.steps[id].status.Succeeded?)
    && (db.steps[id].status.Blocked? ==> !DepsSucceeded(db.steps, id))
  }

  ghost predicate DepsKnown(db: Db, id: StepId)
    requires id in db.steps
  {
    forall d | d in db.steps[id].deps :: StepId(id.run, d) in db.steps
  }

  // Every step of the run ranks above its dependencies.
  ghost predicate RunRanks(db: Db, run: Str, rank: map<Str, nat>) {
    forall id | id in db.steps && id.run == run ::
      id.name in rank && forall d | d in db.steps[id].deps :: d in rank && rank[d] < rank[id.name]
  }

  ghost predicate Unfinished(db: Db, run: Str) {
    exists id :: id in db.steps && id.run == run && !db.steps[id].status.Succeeded?
  }

  ghost predicate DistinctOrds(db: Db, run: Str) {
    forall a, b | a in db.steps && b in db.steps && a.run == run && b.run == run && a != b ::
      db.steps[a].ord != db.steps[b].ord
  }

  // Holds of every run, live or not, whatever happened to it.
  ghost predicate RunShaped(db: Db, run: Str) {
    && (exists id :: id in db.steps && id.run == run)
    && (forall id | id in db.steps && id.run == run :: DepsKnown(db, id))
    && (exists rank :: RunRanks(db, run, rank))
    && DistinctOrds(db, run)
  }

  ghost predicate RunSafe(db: Db, run: Str) {
    forall id | id in db.steps && id.run == run :: DepsSafe(db, id)
  }

  ghost predicate RunMoves(db: Db, run: Str) {
    && Unfinished(db, run)
    && forall id | id in db.steps && id.run == run :: OnItsWay(db, id)
  }

  ghost predicate Moving(db: Db, run: Str) {
    Live(db, run) ==> RunMoves(db, run)
  }

  ghost predicate Rows(db: Db) {
    && (forall id | id in db.steps :: id.run in db.runs)
    && (forall id | id in db.journal :: id in db.steps)
  }

  // ---- progress from the invariant ----------------------------------------------

  // Going down the dependencies of an unfinished step of a live run ends at a
  // step that may execute, or that was interrupted.
  lemma {:induction false} Descend(db: Db, run: Str, rank: map<Str, nat>, id: StepId) returns (ready: StepId)
    requires RunShaped(db, run) && RunMoves(db, run) && RunRanks(db, run, rank)
    requires id in db.steps && id.run == run && !db.steps[id].status.Succeeded?
    ensures ready in db.steps && ready.run == run
    ensures IsStarted(db.steps[ready].status) || db.steps[ready].status.Interrupted?
    decreases rank[id.name]
  {
    assert OnItsWay(db, id);
    if db.steps[id].status.Blocked? {
      assert DepsKnown(db, id);
      var d :| d in db.steps[id].deps && !db.steps[StepId(run, d)].status.Succeeded?;
      ready := Descend(db, run, rank, StepId(run, d));
    } else {
      ready := id;
    }
  }

  lemma LiveRunsCanMove(db: Db, run: Str)
    requires RunShaped(db, run) && Moving(db, run) && Live(db, run)
    ensures exists id :: id in db.steps && id.run == run && (IsStarted(db.steps[id].status) || db.steps[id].status.Interrupted?)
  {
    var rank :| RunRanks(db, run, rank);
    var id :| id in db.steps && id.run == run && !db.steps[id].status.Succeeded?;
    var ready := Descend(db, run, rank, id);
  }

  // ---- how one operation changes one run --------------------------------------------

  // The run keeps its steps, and they keep their dependencies.
  ghost predicate SameShape(db: Db, db1: Db, run: Str) {
    && (forall id: StepId | id.run == run :: id in db.steps <==> id in db1.steps)
    && (forall id | id in db.steps && id.run == run ::
          db1.steps[id].deps == db.steps[id].deps && db1.steps[id].ord == db.steps[id].ord)
  }

  // Steps move between QUEUED, RUNNING and SUSPENDED, or are interrupted.
  ghost predicate Calm(db: Db, db1: Db, run: Str) {
    && SameShape(db, db1, run)
    && (Live(db1, run) ==> Live(db, run))
    && forall id | id in db.steps && id.run == run ::
         || db1.steps[id].status == db.steps[id].status
         || (IsStarted(db.steps[id].status) && (IsStarted(db1.steps[id].status) || db1.steps[id].status.Interrupted?))
  }

  // What had succeeded stays so and nothing new starts.
  ghost predicate Dwindles(db: Db, db1: Db, run: Str) {
    && SameShape(db, db1, run)
    && forall id | id in db.steps && id.run == run ::
         && (db.steps[id].status.Succeeded? ==> db1.steps[id].status.Succeeded?)
         && (IsStarted(db1.steps[id].status) ==> IsStarted(db.steps[id].status))
  }

  // And the run is over.
  ghost predicate Ends(db: Db, db1: Db, run: Str) {
    Dwindles(db, db1, run) && !Live(db1, run)
  }

  // The run is over and no step of it may execute any more.
  ghost predicate Stops(db: Db, db1: Db, run: Str) {
    && SameShape(db, db1, run)
    && !Live(db1, run)
    && forall id | id in db.steps && id.run == run :: !IsStarted(db1.steps[id].status)
  }

  // What an operation leaves of a run it does not create.
  ghost predicate Onward(db: Db, db1: Db, run: Str) {
    RunShaped(db, run) ==>
      && RunShaped(db1, run)
      && (RunSafe(db, run) ==> RunSafe(db1, run))
      && (Moving(db, run) ==> Moving(db1, run))
  }

  // And of one it does.
  ghost predicate Sound(db: Db, run: Str) {
    RunShaped(db, run) && RunSafe(db, run) && Moving(db, run)
  }

  ghost predicate Carried(db: Db, db1: Db, run: Str) {
    if run in db.runs then Onward(db, db1, run) else Sound(db1, run)
  }

  ghost predicate Carries(db: Db, db1: Db) {
    Rows(db1) && forall run {:trigger Carried(db, db1, run)} | run in db1.runs :: Carried(db, db1, run)
  }

  lemma CarriesTrans(a: Db, b: Db, c: Db)
    requires Carries(a, b) && Carries(b, c)
    requires forall run | run in c.runs :: run in b.runs || run !in a.runs
    ensures Carries(a, c)
  {
    forall run | run in c.runs ensures Carried(a, c, run) {
      assert Carried(b, c, run);
      assert run in b.runs ==> Carried(a, b, run);
    }
  }

  ghost predicate Tame(db: Db, db1: Db) {
    && Rows(db1)
    && forall run | run in db1.runs ::
         run in db.runs && (Calm(db, db1, run) || Ends(db, db1, run) || Stops(db, db1, run))
  }

  lemma ShapeKept(db: Db, db1: Db, run: Str)
    requires RunShaped(db, run) && SameShape(db, db1, run)
    ensures RunShaped(db1, run)
  {
    var rank :| RunRanks(db, run, rank);
    assert RunRanks(db1, run, rank);
    var id :| id in db.steps && id.run == run;
    assert id in db1.steps;
    forall id | id in db1.steps && id.run == run ensures DepsKnown(db1, id) {
      assert DepsKnown(db, id);
    }
  }

  lemma SafeKept(db: Db, db1: Db, run: Str)
    requires RunSafe(db, run)
    requires Calm(db, db1, run) || Dwindles(db, db1, run) || Stops(db, db1, run)
    ensures RunSafe(db1, run)
  {
    forall id | id in db1.steps && id.run == run ensures DepsSafe(db1, id) {
      if IsStarted(db1.steps[id].status) {
        assert DepsSafe(db, id);
        forall d | d in db1.steps[id].deps
          ensures StepId(run, d) in db1.steps && db1.steps[StepId(run, d)].status.Succeeded?
        {
          assert StepId(run, d) in db.steps && db.steps[StepId(run, d)].status.Succeeded?;
        }
      }
    }
  }

  lemma StepOnItsWay(db: Db, db1: Db, run: Str, id: StepId)
    requires Calm(db, db1, run) && id in db1.steps && id.run == run && id in db.steps
    requires OnItsWay(db, id) && DepsKnown(db, id)
    ensures OnItsWay(db1, id)
  {
    if db.steps[id].status.Blocked? {
      var d :| d in db.steps[id].deps && !db.steps[StepId(run, d)].status.Succeeded?;
      assert StepId(run, d) in db1.steps;
    }
  }

  lemma MovesKept(db: Db, db1: Db, run: Str)
    requires RunShaped(db, run) && RunMoves(db, run) && Calm(db, db1, run)
    ensures RunMoves(db1, run)
  {
    var id :| id in db.steps && id.run == run && !db.steps[id].status.Succeeded?;
    assert id in db1.steps;
    forall id | id in db1.steps && id.run == run ensures OnItsWay(db1, id) {
      StepOnItsWay(db, db1, run, id);
    }
  }

  lemma RunCarried(db: Db, db1: Db, run: Str)
    requires Calm(db, db1, run) || Ends(db, db1, run) || Stops(db, db1, run)
    ensures Onward(db, db1, run)
  {
    if RunShaped(db, run) {
      ShapeKept(db, db1, run);
      if RunSafe(db, run) {
        SafeKept(db, db1, run);
      }
      if Moving(db, run) && Live(db1, run) {
        MovesKept(db, db1, run);
      }
    }
  }

  lemma TameCarries(db: Db, db1: Db)
    requires Tame(db, db1)
    ensures Carries(db, db1)
  {
    forall run | run in db1.runs ensures Carried(db, db1, run) {
      RunCarried(db, db1, run);
    }
  }

  // ---- the tame operations ------------------------------------------------------------

  // A started step moves among the started statuses.
  lemma OneStepCalm(db: Db, id: StepId, s: Step, runs: map<Str, Run>, journal: map<StepId, seq<Entry>>, run: Str)
    requires id in db.steps && IsStarted(db.steps[id].status)
    requires s.deps == db.steps[id].deps && s.ord == db.steps[id].ord && IsStarted(s.status)
    requires runs.Keys == db.runs.Keys && forall r | r in runs :: IsTerminal(runs[r].status) <==> IsTerminal(db.runs[r].status)
    ensures Calm(db, db.(steps := db.steps[id := s], runs := runs, journal := journal), run)
  {
  }

  lemma OneStepTame(db: Db, id: StepId, s: Step, runs: map<Str, Run>, journal: map<StepId, seq<Entry>>)
    requires Rows(db) && id in db.steps && IsStarted(db.steps[id].status)
    requires s.deps == db.steps[id].deps && s.ord == db.steps[id].ord && IsStarted(s.status)
    requires runs.Keys == db.runs.Keys && forall r | r in runs :: IsTerminal(runs[r].status) <==> IsTerminal(db.runs[r].status)
    requires journal.Keys <= db.journal.Keys + {id}
    ensures Tame(db, db.(steps := db.steps[id := s], runs := runs, journal := journal))
  {
    var db1 := db.(steps := db.steps[id := s], runs := runs, journal := journal);
    forall run | run in db1.runs ensures Calm(db, db1, run) {
      OneStepCalm(db, id, s, runs, journal, run);
    }
  }

  // A started step of a run that is over is cancelled.
  lemma OneStepCancelled(db: Db, id: StepId, s: Step)
    requires Rows(db) && id in db.steps && IsStarted(db.steps[id].status) && !Live(db, id.run)
    requires s.deps == db.steps[id].deps && s.ord == db.steps[id].ord && s.status.Cancelled?
    ensures Tame(db, db.(steps := db.steps[id := s]))
  {
    var db1 := db.(steps := db.steps[id := s]);
    assert forall run | run in db1.runs && run != id.run :: Calm(db, db1, run);
    assert Ends(db, db1, id.run);
  }

  lemma SameTame(db: Db)
    requires Rows(db)
    ensures Tame(db, db)
  {
    assert forall run | run in db.runs :: Calm(db, db, run);
  }

  lemma ClaimOneTame(db: Db, id: StepId, resumed: bool, c: Claimer)
    requires Rows(db)
    ensures Tame(db, ClaimOne(db, id, resumed, c))
  {
    SameTame(db);
    if Claimable(db, id, resumed, c.now) {
      var runs := if resumed then db.runs else db.runs[id.run := ClaimedRun(db.runs[id.run], c.now)];
      OneStepTame(db, id, ClaimedStep(db.steps[id], resumed, c), runs, db.journal);
    }
  }

  lemma {:induction false} ClaimAllCarries(db: Db, cands: seq<Candidate>, c: Claimer)
    requires Rows(db)
    ensures Carries(db, ClaimAll(db, cands, c)) && ClaimAll(db, cands, c).runs.Keys == db.runs.Keys
    decreases |cands|
  {
    if cands == [] {
      SameTame(db);
      TameCarries(db, db);
    } else {
      var front, last := cands[..|cands| - 1], cands[|cands| - 1];
      var mid := ClaimAll(db, front, c);
      ClaimAllCarries(db, front, c);
      ClaimOneTame(mid, last.id, last.resumed, c);
      TameCarries(mid, ClaimAll(db, cands, c));
      CarriesTrans(db, mid, ClaimAll(db, cands, c));
    }
  }

  // The operations on one executing step other than its completion and failure.
  predicate ExecutorOp(op: Op) {
    op.StepRetried? || op.StepParked? || op.StepRequeued? || op.StepStopped? || op.AwaitRecorded? || op.AwaitResumed?
  }

  lemma ExecutorTame(db: Db, op: Op)
    requires Rows(db) && ExecutorOp(op) && Enabled(db, op)
    ensures Tame(db, Apply(db, op))
  {
    SameTame(db);
    if op.StepStopped? {
      if op.id in db.steps && IsStarted(db.steps[op.id].status) {
        OneStepCancelled(db, op.id, Apply(db, op).steps[op.id]);
      }
    } else if IsRunning(db, op.id) {
      MovedOn(db, op);
      var db1 := Apply(db, op);
      OneStepTame(db, op.id, db1.steps[op.id], db.runs, db1.journal);
    }
  }

  lemma MovedOn(db: Db, op: Op)
    requires Rows(db) && ExecutorOp(op) && !op.StepStopped? && IsRunning(db, op.id)
    ensures var db1 := Apply(db, op);
      && op.id in db1.steps
      && db1 == db.(steps := db.steps[op.id := db1.steps[op.id]], journal := db1.journal)
      && IsStarted(db1.steps[op.id].status)
      && db1.steps[op.id].deps == db.steps[op.id].deps && db1.steps[op.id].ord == db.steps[op.id].ord
      && db1.journal.Keys <= db.journal.Keys + {op.id}
  {
  }

  lemma CalmAll(db: Db, db1: Db)
    requires Rows(db1)
    requires forall run | run in db1.runs :: Calm(db, db1, run) && run in db.runs
    ensures Tame(db, db1)
  {
  }

  lemma DeleteTame(db: Db, ids: set<Str>)
    requires Rows(db)
    ensures Tame(db, DeleteRuns(db, ids))
  {
    CalmAll(db, DeleteRuns(db, ids));
  }

  lemma ReapTame(db: Db, ids: set<StepId>, now: int)
    requires Rows(db)
    ensures Tame(db, Reap(db, ids, now))
  {
    CalmAll(db, Reap(db, ids, now));
  }

  lemma HeartbeatTame(db: Db, worker: Str, until: int)
    requires Rows(db)
    ensures Tame(db, Heartbeat(db, worker, until))
  {
    CalmAll(db, Heartbeat(db, worker, until));
  }

  lemma DeliverTame(db: Db, event: Str, payload: Str)
    requires Rows(db)
    ensures Tame(db, DeliverEvent(db, event, payload))
  {
    CalmAll(db, DeliverEvent(db, event, payload));
  }

  lemma PauseTame(db: Db, run: Str, now: int)
    requires Rows(db)
    ensures Tame(db, PauseRun(db, run, now))
  {
    CalmAll(db, PauseRun(db, run, now));
  }

  lemma ResumeTame(db: Db, run: Str, now: int)
    requires Rows(db)
    ensures Tame(db, ResumeRun(db, run, now))
  {
    CalmAll(db, ResumeRun(db, run, now));
  }

  lemma SnoozeTame(db: Db, run: Str, until: int)
    requires Rows(db)
    ensures Tame(db, Snooze(db, run, until))
  {
    CalmAll(db, Snooze(db, run, until));
  }

  // Other runs keep their rows.
  ghost predicate Only(db: Db, db1: Db, run: Str) {
    && (forall id: StepId | id.run != run :: id in db.steps <==> id in db1.steps)
    && (forall id | id in db.steps && id.run != run :: db1.steps[id] == db.steps[id])
    && (forall r | r != run :: r in db.runs <==> r in db1.runs)
    && (forall r | r in db.runs && r != run :: db1.runs[r] == db.runs[r])
  }

  lemma OnlyTame(db: Db, db1: Db, run: Str)
    requires Rows(db1) && Only(db, db1, run)
    requires run in db1.runs ==> run in db.runs && (Calm(db, db1, run) || Ends(db, db1, run) || Stops(db, db1, run))
    ensures Tame(db, db1)
  {
    forall r | r in db1.runs && r != run ensures Calm(db, db1, r) {}
  }

  lemma CancelRowEnds(db: Db, run: Str, running: bool, now: int)
    requires run in db.runs
    ensures Ends(db, CancelRow(db, run, running, now), run)
  {
    assert SameShape(db, CancelRow(db, run, running, now), run);
  }

  lemma CancelRowTame(db: Db, run: Str, running: bool, now: int)
    requires Rows(db)
    ensures Tame(db, CancelRow(db, run, running, now))
  {
    SameTame(db);
    if run in db.runs {
      var db1 := CancelRow(db, run, running, now);
      CancelRowEnds(db, run, running, now);
      assert Only(db, db1, run);
      OnlyTame(db, db1, run);
    }
  }

  lemma FailStops(db: Db, id: StepId, error: Str, deadLetter: bool, now: int)
    requires Rows(db) && id.run in db.runs
    ensures var db1 := FinalFail(db, id, error, deadLetter, now);
      Rows(db1) && Only(db, db1, id.run) && (id.run in db1.runs ==> Stops(db, db1, id.run))
  {
    var db1 := FinalFail(db, id, error, deadLetter, now);
    if id.run in db1.runs {
      assert SameShape(db, db1, id.run);
    }
  }

  lemma FailTame(db: Db, id: StepId, error: Str, deadLetter: bool, now: int)
    requires Rows(db)
    ensures Tame(db, FinalFail(db, id, error, deadLetter, now))
  {
    SameTame(db);
    if id.run in db.runs {
      FailStops(db, id, error, deadLetter, now);
      OnlyTame(db, FinalFail(db, id, error, deadLetter, now), id.run);
    }
  }

  lemma InterruptCalm(db: Db, now: int, run: Str)
    requires Rows(db) && run in InterruptAll(db, now).runs
    ensures Calm(db, InterruptAll(db, now), run)
  {
  }

  lemma InterruptTame(db: Db, now: int)
    requires Rows(db)
    ensures Tame(db, InterruptAll(db, now))
  {
    CalmAll(db, InterruptAll(db, now));
  }

  lemma InterruptWorkerRows(db: Db, worker: Str, now: int)
    requires Rows(db)
    ensures Rows(InterruptWorker(db, worker, now)) && InterruptWorker(db, worker, now).runs.Keys <= db.runs.Keys
  {
  }

  lemma InterruptWorkerRow(db: Db, worker: Str, now: int, id: StepId)
    requires Rows(db) && id.run in InterruptWorker(db, worker, now).runs
    ensures var db1 := InterruptWorker(db, worker, now);
      && (id in db.steps <==> id in db1.steps)
      && (id in db.steps ==>
            && db1.steps[id].deps == db.steps[id].deps && db1.steps[id].ord == db.steps[id].ord
            && (db1.steps[id].status == db.steps[id].status || (db.steps[id].status.Running? && db1.steps[id].status.Interrupted?)))
  {
  }

  lemma InterruptWorkerCalm(db: Db, worker: Str, now: int, run: Str)
    requires Rows(db) && run in InterruptWorker(db, worker, now).runs
    ensures Calm(db, InterruptWorker(db, worker, now), run)
  {
    forall id: StepId | id.run == run {
      InterruptWorkerRow(db, worker, now, id);
    }
  }

  lemma InterruptWorkerTame(db: Db, worker: Str, now: int)
    requires Rows(db)
    ensures Tame(db, InterruptWorker(db, worker, now))
  {
    var db1 := InterruptWorker(db, worker, now);
    InterruptWorkerRows(db, worker, now);
    forall run | run in db1.runs ensures Calm(db, db1, run) {
      InterruptWorkerCalm(db, worker, now, run);
    }
  }

  // ---- completion -------------------------------------------------------------------

  // An operation on one run carries the others.
  lemma OnlyCarries(db: Db, db1: Db, run: Str)
    requires Rows(db1) && Only(db, db1, run) && (run in db1.runs ==> Carried(db, db1, run))
    ensures Carries(db, db1)
  {
    forall r | r in db1.runs ensures Carried(db, db1, r) {
      if r != run {
        assert Calm(db, db1, r);
        RunCarried(db, db1, r);
      }
    }
  }

  // The steps of the run once `id` has succeeded.
  ghost predicate Succeeds(db: Db, db1: Db, id: StepId) {
    && id in db.steps && IsStarted(db.steps[id].status)
    && exists output :: db1 == db.(steps := SucceedStep(db.steps, id, output))
  }

  lemma ReadyStepsDepend(db: Db, db1: Db, id: StepId, j: StepId)
    requires RunMoves(db, id.run) && Succeeds(db, db1, id)
    requires j in db1.steps && j.run == id.run && db1.steps[j].status.Blocked? && DepsSucceeded(db1.steps, j)
    ensures id.name in db1.steps[j].deps
  {
    assert OnItsWay(db, j) && j != id;
    var d :| d in db.steps[j].deps && !(StepId(id.run, d) in db.steps && db.steps[StepId(id.run, d)].status.Succeeded?);
    assert StepId(id.run, d) == id;
  }

  // Unblocking the direct dependents unblocks all a scan of the run would.
  lemma DirectDependentsSuffice(db: Db, db1: Db, id: StepId)
    requires RunMoves(db, id.run) && Succeeds(db, db1, id)
    ensures Unblocked(db1.steps, id.run, id.name) == AllUnblocked(db1.steps, id.run)
  {
    forall j | j in db1.steps && j.run == id.run && db1.steps[j].status.Blocked? && DepsSucceeded(db1.steps, j)
      ensures id.name in db1.steps[j].deps
    {
      ReadyStepsDepend(db, db1, id, j);
    }
  }

  ghost function AfterUnblock(db: Db, run: Str, name: Str, now: int): Db {
    db.(steps := QueueSteps(db.steps, run, Unblocked(db.steps, run, name), now))
  }

  lemma UnblockedRow(db1: Db, id: StepId, now: int, j: StepId)
    requires j in db1.steps
    ensures var s := AfterUnblock(db1, id.run, id.name, now).steps[j];
      && s.deps == db1.steps[j].deps && s.ord == db1.steps[j].ord
      && (s.status == db1.steps[j].status || (s.status.Queued? && db1.steps[j].status.Blocked?))
      && (s.status.Queued? && db1.steps[j].status.Blocked? ==> j.run == id.run && DepsSucceeded(db1.steps, j))
      && (j.run == id.run && s.status.Blocked? ==> j.name !in Unblocked(db1.steps, id.run, id.name))
      && (j.run != id.run ==> s == db1.steps[j])
  {
    var ready := Unblocked(db1.steps, id.run, id.name);
    if j.run == id.run && j.name in ready {
      var k :| k in db1.steps && k.run == id.run && k.name == j.name && db1.steps[k].status.Blocked? && DepsSucceeded(db1.steps, k);
      assert k == j;
    }
  }

  lemma UnblockShape(db: Db, db1: Db, id: StepId, now: int)
    requires Rows(db) && Succeeds(db, db1, id)
    ensures SameShape(db, AfterUnblock(db1, id.run, id.name, now), id.run)
    ensures Only(db, AfterUnblock(db1, id.run, id.name, now), id.run)
    ensures Rows(AfterUnblock(db1, id.run, id.name, now))
  {
    var db2 := AfterUnblock(db1, id.run, id.name, now);
    forall j | j in db2.steps
      ensures db2.steps[j].deps == db.steps[j].deps && db2.steps[j].ord == db.steps[j].ord
      ensures j.run != id.run ==> db2.steps[j] == db.steps[j]
    {
      UnblockedRow(db1, id, now, j);
    }
  }

  lemma UnblockedDepsSafe(db: Db, db1: Db, id: StepId, now: int, j: StepId)
    requires Succeeds(db, db1, id) && j in db.steps && j.run == id.run && DepsSafe(db, j)
    ensures DepsSafe(AfterUnblock(db1, id.run, id.name, now), j)
  {
    UnblockedRow(db1, id, now, j);
    if IsStarted(AfterUnblock(db1, id.run, id.name, now).steps[j].status) {
      SucceededStays(db1, id, now, j);
    }
  }

  lemma SucceededStays(db1: Db, id: StepId, now: int, j: StepId)
    requires j in db1.steps && j.run == id.run && DepsSucceeded(db1.steps, j)
    ensures DepsSucceeded(AfterUnblock(db1, id.run, id.name, now).steps, j)
  {
    forall d | d in db1.steps[j].deps
      ensures AfterUnblock(db1, id.run, id.name, now).steps[StepId(id.run, d)].status.Succeeded?
    {
      UnblockedRow(db1, id, now, StepId(id.run, d));
    }
    UnblockedRow(db1, id, now, j);
  }

  lemma UnblockMoves(db: Db, db1: Db, id: StepId, now: int)
    requires RunShaped(db, id.run) && RunMoves(db, id.run) && Succeeds(db, db1, id)
    ensures forall j | j in db1.steps && j.run == id.run :: OnItsWay(AfterUnblock(db1, id.run, id.name, now), j)
  {
    var db2 := AfterUnblock(db1, id.run, id.name, now);
    DirectDependentsSuffice(db, db1, id);
    forall j | j in db1.steps && j.run == id.run ensures OnItsWay(db2, j) {
      UnblockedRow(db1, id, now, j);
      assert OnItsWay(db, j);
      if db2.steps[j].status.Blocked? {
        assert j.name !in AllUnblocked(db1.steps, id.run);
        if DepsSucceeded(db2.steps, j) {
          forall d | d in db1.steps[j].deps ensures db1.steps[StepId(j.run, d)].status.Succeeded? {
            UnblockedRow(db1, id, now, StepId(j.run, d));
          }
        }
      }
    }
  }

  lemma FinishTame(db: Db, run: Str, status: Status, output: Str, error: Str, now: int)
    requires Rows(db) && run in db.runs && (status.Succeeded? || status.Failed?)
    ensures Tame(db, FinishRun(db, run, status, output, error, now))
    ensures !Live(FinishRun(db, run, status, output, error, now), run)
  {
    var db1 := FinishRun(db, run, status, output, error, now);
    assert Only(db, db1, run);
    OnlyTame(db, db1, run);
  }

  lemma UnblockedShaped(db: Db, db1: Db, id: StepId, now: int)
    requires Rows(db) && RunShaped(db, id.run) && Succeeds(db, db1, id)
    ensures RunShaped(AfterUnblock(db1, id.run, id.name, now), id.run)
  {
    UnblockShape(db, db1, id, now);
    ShapeKept(db, AfterUnblock(db1, id.run, id.name, now), id.run);
  }

  lemma UnblockSafe(db: Db, db1: Db, id: StepId, now: int)
    requires Rows(db) && RunShaped(db, id.run) && RunSafe(db, id.run) && Succeeds(db, db1, id)
    ensures RunSafe(AfterUnblock(db1, id.run, id.name, now), id.run)
  {
    var db2 := AfterUnblock(db1, id.run, id.name, now);
    forall j | j in db2.steps && j.run == id.run ensures DepsSafe(db2, j) {
      UnblockedDepsSafe(db, db1, id, now, j);
    }
  }

  // The run with the step done and its dependents unblocked, before it ends.
  lemma UnblockOnward(db: Db, db1: Db, id: StepId, now: int)
    requires Rows(db) && RunShaped(db, id.run) && Succeeds(db, db1, id)
    ensures var db2 := AfterUnblock(db1, id.run, id.name, now);
      && RunShaped(db2, id.run) && (RunSafe(db, id.run) ==> RunSafe(db2, id.run))
      && (RunMoves(db, id.run) && AnyActive(db2.steps, id.run) ==> RunMoves(db2, id.run))
  {
    UnblockedShaped(db, db1, id, now);
    if RunSafe(db, id.run) {
      UnblockSafe(db, db1, id, now);
    }
    if RunMoves(db, id.run) {
      UnblockMoves(db, db1, id, now);
    }
  }

  lemma UnblockedCarries(db: Db, db1: Db, id: StepId, now: int)
    requires Rows(db) && Live(db, id.run) && Succeeds(db, db1, id) && AnyActive(AfterUnblock(db1, id.run, id.name, now).steps, id.run)
    ensures Carries(db, AfterUnblock(db1, id.run, id.name, now))
  {
    UnblockShape(db, db1, id, now);
    if RunShaped(db, id.run) {
      UnblockOnward(db, db1, id, now);
    }
    OnlyCarries(db, AfterUnblock(db1, id.run, id.name, now), id.run);
  }

  // A run that a completion ends.
  lemma FinishedCarries(db: Db, db1: Db, id: StepId, db2: Db, status: Status, output: Str, error: Str, now: int)
    requires Rows(db) && Succeeds(db, db1, id) && id.run in db2.runs && (status.Succeeded? || status.Failed?)
    requires db2 == db1 || db2 == AfterUnblock(db1, id.run, id.name, now)
    ensures Carries(db, FinishRun(db2, id.run, status, output, error, now))
  {
    var db3 := FinishRun(db2, id.run, status, output, error, now);
    BeforeEndOnly(db, db1, id, db2, now);
    FinishOnly(db2, id.run, status, output, error, now);
    FinishTame(db2, id.run, status, output, error, now);
    if id.run in db3.runs && RunShaped(db, id.run) {
      ShapeKept(db, db2, id.run);
      RunCarried(db2, db3, id.run);
      if RunSafe(db, id.run) {
        SucceededSafe(db, db1, id, db2, now);
      }
    }
    OnlyTrans(db, db2, db3, id.run);
    OnlyCarries(db, db3, id.run);
  }

  lemma FinishOnly(db: Db, run: Str, status: Status, output: Str, error: Str, now: int)
    requires run in db.runs
    ensures Only(db, FinishRun(db, run, status, output, error, now), run)
  {
  }

  lemma OnlyTrans(a: Db, b: Db, c: Db, run: Str)
    requires Only(a, b, run) && Only(b, c, run)
    ensures Only(a, c, run)
  {
  }

  lemma BeforeEndOnly(db: Db, db1: Db, id: StepId, db2: Db, now: int)
    requires Rows(db) && Succeeds(db, db1, id) && (db2 == db1 || db2 == AfterUnblock(db1, id.run, id.name, now))
    ensures Rows(db2) && Only(db, db2, id.run) && SameShape(db, db2, id.run)
  {
    UnblockShape(db, db1, id, now);
  }

  lemma SucceededSafe(db: Db, db1: Db, id: StepId, db2: Db, now: int)
    requires Rows(db) && Succeeds(db, db1, id) && (db2 == db1 || db2 == AfterUnblock(db1, id.run, id.name, now)) && RunSafe(db, id.run)
    ensures RunSafe(db2, id.run)
  {
    if db2 == db1 {
      assert Dwindles(db, db1, id.run);
      SafeKept(db, db1, id.run);
    } else {
      forall j | j in db2.steps && j.run == id.run ensures DepsSafe(db2, j) {
        UnblockedDepsSafe(db, db1, id, now, j);
      }
    }
  }

  lemma ConcludeCarries(db: Db, db1: Db, id: StepId, now: int)
    requires Rows(db) && Live(db, id.run) && Succeeds(db, db1, id)
    ensures Carries(db, Conclude(AfterUnblock(db1, id.run, id.name, now), id.run, Unblocked(db1.steps, id.run, id.name), now).0)
  {
    var db2 := AfterUnblock(db1, id.run, id.name, now);
    if AnyActive(db2.steps, id.run) {
      UnblockedCarries(db, db1, id, now);
    } else {
      var failed := AnyFailed(db2.steps, id.run);
      FinishedCarries(db, db1, id, db2, if failed then Failed else Succeeded, LastOutput(db2.steps, id.run),
                      if failed then FailedError(db2.steps, id.run) else Empty, now);
    }
  }

  lemma CompleteCarries(db: Db, id: StepId, count: int, output: Str, now: int)
    requires Rows(db) && Complete(db, id, count, output, now).Some?
    ensures Carries(db, Complete(db, id, count, output, now).value.0)
  {
    if Accepts(db, id) {
      var db1 := db.(steps := SucceedStep(db.steps, id, output));
      assert Succeeds(db, db1, id);
      if count == 1 {
        FinishedCarries(db, db1, id, db1, Succeeded, output, Empty, now);
      } else {
        ConcludeCarries(db, db1, id, now);
      }
    } else if IsTerminal(db.runs[id.run].status) && id in db.steps && IsStarted(db.steps[id].status) {
      OneStepCancelled(db, id, db.steps[id].(status := Cancelled));
      TameCarries(db, db.(steps := db.steps[id := db.steps[id].(status := Cancelled)]));
    } else {
      SameTame(db);
      TameCarries(db, db);
    }
  }

  // ---- dead letters --------------------------------------------------------------------

  lemma DeadLetterShape(db: Db, run: Str, now: int)
    requires Rows(db) && IsDeadLetter(db, run)
    ensures var db1 := RetryDeadLetter(db, run, now);
      Rows(db1) && Only(db, db1, run) && SameShape(db, db1, run) && RunSafe(db1, run)
  {
  }

  lemma DeadLetterMoves(db: Db, run: Str, now: int)
    requires RunShaped(db, run) && IsDeadLetter(db, run)
    ensures RunMoves(RetryDeadLetter(db, run, now), run)
  {
    var db1 := RetryDeadLetter(db, run, now);
    var id :| id in db.steps && id.run == run;
    assert id in db1.steps && !db1.steps[id].status.Succeeded?;
    forall j | j in db1.steps && j.run == run ensures OnItsWay(db1, j) {
      assert db1.steps[j] == ResetStep(db.steps[j], now);
      if db1.steps[j].status.Blocked? {
        var d := db.steps[j].deps[0];
        assert DepsKnown(db, j) && d in db1.steps[j].deps;
        assert db1.steps[StepId(run, d)] == ResetStep(db.steps[StepId(run, d)], now);
      }
    }
  }

  lemma DeadLetterCarries(db: Db, run: Str, now: int)
    requires Rows(db)
    ensures Carries(db, RetryDeadLetter(db, run, now))
  {
    var db1 := RetryDeadLetter(db, run, now);
    if IsDeadLetter(db, run) {
      DeadLetterShape(db, run, now);
      if RunShaped(db, run) {
        ShapeKept(db, db1, run);
        DeadLetterMoves(db, run, now);
      }
      OnlyCarries(db, db1, run);
    } else {
      SameTame(db);
      TameCarries(db, db);
    }
  }

  // ---- enqueueing ------------------------------------------------------------------------

  lemma InsertedRun(db: Db, n: NewRun)
    requires Rows(db) && n.id !in db.runs && n.steps != map[]
    requires forall name | name in n.steps :: WellFormedStep(n.steps[name])
    requires forall a, b | a in n.steps && b in n.steps && a != b :: n.steps[a].ord != n.steps[b].ord
    requires Closed(DepsOf(n.steps)) && exists rank :: Ranks(DepsOf(n.steps), rank)
    ensures Rows(Inserted(db, n)) && Only(db, Inserted(db, n), n.id)
    ensures RunShaped(Inserted(db, n), n.id) && RunSafe(Inserted(db, n), n.id)
  {
    var db1 := Inserted(db, n);
    InsertedRows(db, n);
    var name :| name in n.steps;
    assert StepId(n.id, name) in db1.steps;
    var rank :| Ranks(DepsOf(n.steps), rank);
    forall id | id in db1.steps && id.run == n.id
      ensures DepsKnown(db1, id) && DepsSafe(db1, id)
      ensures id.name in rank && forall d | d in db1.steps[id].deps :: d in rank && rank[d] < rank[id.name]
    {
      assert db1.steps[id] == n.steps[id.name] && DepsOf(n.steps)[id.name] == n.steps[id.name].deps;
      assert WellFormedStep(n.steps[id.name]);
    }
    assert RunRanks(db1, n.id, rank);
  }

  lemma InsertedRows(db: Db, n: NewRun)
    requires Rows(db) && n.id !in db.runs
    ensures Rows(Inserted(db, n)) && Only(db, Inserted(db, n), n.id)
    ensures forall id | id in Inserted(db, n).steps && id.run == n.id ::
      id.name in n.steps && Inserted(db, n).steps[id] == n.steps[id.name]
    ensures forall name | name in n.steps :: StepId(n.id, name) in Inserted(db, n).steps
  {
  }

  lemma InsertedMoves(db: Db, n: NewRun)
    requires Rows(db) && n.id !in db.runs && n.steps != map[]
    requires forall name | name in n.steps :: WellFormedStep(n.steps[name])
    requires Closed(DepsOf(n.steps))
    ensures RunMoves(Inserted(db, n), n.id)
  {
    var db1 := Inserted(db, n);
    InsertedRows(db, n);
    var name :| name in n.steps;
    assert WellFormedStep(n.steps[name]) && !db1.steps[StepId(n.id, name)].status.Succeeded?;
    forall id | id in db1.steps && id.run == n.id ensures OnItsWay(db1, id) {
      assert WellFormedStep(n.steps[id.name]);
      if db1.steps[id].status.Blocked? {
        var d := n.steps[id.name].deps[0];
        assert d in DepsOf(n.steps)[id.name];
        assert StepId(n.id, d) in db1.steps && WellFormedStep(n.steps[d]);
      }
    }
  }

  lemma {:induction false} CancelAllCarries(db: Db, victims: seq<Str>, now: int)
    requires Rows(db)
    ensures Carries(db, CancelAll(db, victims, now)) && CancelAll(db, victims, now).runs.Keys <= db.runs.Keys
  {
    if victims == [] {
      SameTame(db);
      TameCarries(db, db);
    } else {
      var mid, db1 := CancelAll(db, victims[..|victims| - 1], now), CancelAll(db, victims, now);
      CancelAllCarries(db, victims[..|victims| - 1], now);
      CancelOrDeleteTame(mid, victims[|victims| - 1], now);
      TameCarries(mid, db1);
      CarriesTrans(db, mid, db1);
    }
  }

  lemma CancelOrDeleteTame(db: Db, run: Str, now: int)
    requires Rows(db)
    ensures Tame(db, CancelOrDelete(db, run, now))
  {
    SameTame(db);
    CancelRowTame(db, run, false, now);
    DeleteTame(db, {run});
  }

  lemma PrepareTame(db: Db, a: Db, now: int)
    requires Rows(db) && Prepares(db, a, now)
    ensures Tame(db, a)
  {
    SameTame(db);
    if a != db {
      var r :| Live(db, r) && a == CancelRow(db, r, true, now);
      CancelRowTame(db, r, true, now);
    }
  }

  lemma StampedShape(n: NewRun, seqNo: int)
    requires WellFormed(n)
    ensures var m := Stamped(n, seqNo); m.steps != map[] && DepsOf(m.steps) == DepsOf(n.steps)
  {
    StampedWell(n, seqNo);
    var m := Stamped(n, seqNo);
    assert DepsOf(m.steps).Keys == m.steps.Keys && DepsOf(n.steps).Keys == n.steps.Keys;
    var name :| name in n.steps;
    assert name in m.steps;
  }

  lemma InsertCarries(db: Db, n: NewRun, seqNo: int)
    requires Rows(db) && WellFormed(n) && n.id !in db.runs
    ensures Carries(db, Inserted(db, Stamped(n, seqNo)))
  {
    var m := Stamped(n, seqNo);
    StampedWell(n, seqNo);
    StampedShape(n, seqNo);
    InsertedRun(db, m);
    InsertedMoves(db, m);
    OnlyCarries(db, Inserted(db, m), m.id);
  }

  lemma NumberedTame(db: Db, n: NewRun)
    requires Rows(db)
    ensures Tame(db, Numbered(db, n))
  {
    CalmAll(db, Numbered(db, n));
  }

  lemma EnqueueCarries(db: Db, n: NewRun, now: int)
    requires Rows(db) && WellFormed(n) && n.id !in db.runs && EnqueueOne(db, n, now).Enqueued?
    ensures Carries(db, EnqueueOne(db, n, now).db)
  {
    var a, inserted := EnqueueParts(db, n, now);
    var d, m, out := Numbered(db, n), Stamped(n, db.next + 1), EnqueueOne(db, n, now).db;
    NumberedTame(db, n);
    TameCarries(db, d);
    PrepareTame(d, a, now);
    TameCarries(d, a);
    PrepareSteady(d, a, now);
    CarriesTrans(db, d, a);
    if inserted {
      InsertCarries(a, n, db.next + 1);
      CarriesTrans(db, a, Inserted(a, m));
      CancelAllCarries(Inserted(a, m), StrategyVictims(Inserted(a, m), m), now);
      CarriesTrans(db, Inserted(a, m), out);
    }
  }

  // ---- every operation ----------------------------------------------------------------

  lemma DismissTame(db: Db, run: Str)
    requires Rows(db)
    ensures Tame(db, DismissDeadLetter(db, run))
  {
    CalmAll(db, DismissDeadLetter(db, run));
  }

  lemma SameRowsTame(db: Db, db1: Db)
    requires Rows(db) && Rows(db1) && db1.steps == db.steps && db1.runs == db.runs
    ensures Tame(db, db1)
  {
    CalmAll(db, db1);
  }

  lemma JournalRows(db: Db, op: Op)
    requires Rows(db) && JournalOp(op)
    ensures Apply(db, op) == db.(journal := Apply(db, op).journal) && Rows(Apply(db, op))
  {
  }

  lemma CancelRunTame(db: Db, run: Str, now: int)
    requires Rows(db)
    ensures Tame(db, CancelRun(db, run, now))
  {
    SameTame(db);
    CancelOrDeleteTame(db, run, now);
  }

  predicate Boots(op: Op) {
    op.Recovered? || op.Rebooted?
  }

  // Operations whose every effect on a run is one of three.
  predicate TameOp(op: Op) {
    !op.EnqueueRun? && !op.ClaimQueue? && !op.StepDone? && !op.DeadLetterRetried? && !Boots(op)
  }

  lemma TableOpTame(db: Db, op: Op)
    requires Rows(db) && TameOp(op) && !Sweeps(op) && !ExecutorOp(op) && !JournalOp(op)
    ensures Tame(db, Apply(db, op))
  {
    if op.StepFailed? {
      FailTame(db, op.id, op.error, op.deadLetter, op.now);
    } else if op.EventEmitted? {
      DeliverTame(db, op.event, op.payload);
    } else if op.LeasesReaped? {
      ReapTame(db, op.ids, op.now);
    } else if op.LeasesExtended? {
      HeartbeatTame(db, op.worker, op.until);
    } else if op.QueuePaused? || op.QueueResumed? {
      SameRowsTame(db, Apply(db, op));
    } else {
      RunOpTame(db, op);
    }
  }

  lemma RunOpTame(db: Db, op: Op)
    requires Rows(db)
    requires op.RunCancelled? || op.RunPaused? || op.RunResumed? || op.RunSnoozed? || op.RunsPurged? || op.DeadLetterDismissed?
    ensures Tame(db, Apply(db, op))
  {
    if op.RunCancelled? {
      assert Apply(db, op) == CancelRun(db, op.run, op.now);
      CancelRunTame(db, op.run, op.now);
    } else if op.RunPaused? {
      assert Apply(db, op) == PauseRun(db, op.run, op.now);
      PauseTame(db, op.run, op.now);
    } else if op.RunResumed? {
      assert Apply(db, op) == ResumeRun(db, op.run, op.now);
      ResumeTame(db, op.run, op.now);
    } else if op.RunSnoozed? {
      assert Apply(db, op) == Snooze(db, op.run, op.until);
      SnoozeTame(db, op.run, op.until);
    } else if op.RunsPurged? {
      assert Apply(db, op) == DeleteRuns(db, op.runIds);
      DeleteTame(db, op.runIds);
    } else {
      assert Apply(db, op) == DismissDeadLetter(db, op.run);
      DismissTame(db, op.run);
    }
  }

  lemma OpTame(db: Db, op: Op)
    requires Rows(db) && Enabled(db, op) && TameOp(op)
    ensures Tame(db, Apply(db, op))
  {
    if op.Interrupted? {
      InterruptTame(db, op.now);
    } else if op.WorkerClosed? {
      InterruptWorkerTame(db, op.worker, op.now);
    } else if ExecutorOp(op) {
      ExecutorTame(db, op);
    } else if JournalOp(op) {
      JournalRows(db, op);
      SameRowsTame(db, Apply(db, op));
    } else {
      TableOpTame(db, op);
    }
  }

  lemma OpCarries(db: Db, op: Op)
    requires Rows(db) && Enabled(db, op) && !Boots(op)
    ensures Carries(db, Apply(db, op))
  {
    if op.EnqueueRun? {
      EnqueueOpCarries(db, op.n, op.now);
    } else if op.ClaimQueue? {
      ClaimAllCarries(db, op.cands, op.c);
    } else if op.StepDone? {
      DoneCarries(db, op.id, op.output, op.now);
    } else if op.DeadLetterRetried? {
      DeadLetterCarries(db, op.run, op.now);
    } else {
      OpTame(db, op);
      TameCarries(db, Apply(db, op));
    }
  }

  lemma EnqueueOpCarries(db: Db, n: NewRun, now: int)
    requires Rows(db) && Enabled(db, EnqueueRun(n, now))
    ensures Carries(db, Apply(db, EnqueueRun(n, now)))
  {
    if EnqueueOne(db, n, now).Enqueued? {
      EnqueueCarries(db, n, now);
    } else {
      SameTame(db);
      TameCarries(db, db);
    }
  }

  lemma DoneCarries(db: Db, id: StepId, output: Str, now: int)
    requires Rows(db)
    ensures Carries(db, Apply(db, StepDone(id, output, now)))
  {
    if CompleteStep(db, id, output, now).Some? {
      CompleteCarries(db, id, |StepsOf(db.steps, id.run)|, output, now);
    } else {
      SameTame(db);
      TameCarries(db, db);
    }
  }

  // ---- boots ------------------------------------------------------------------------------

  lemma RecoverRows(db: Db, keep: bool, reason: Str, now: int)
    requires Rows(db)
    ensures Rows(Recover(db, keep, reason, now))
  {
  }

  lemma BootRows(db: Db, graceful: bool, keep: bool, reason: Str, now: int)
    requires Rows(db)
    ensures Rows(Reboot(db, graceful, keep, reason, now))
  {
    InterruptTame(db, now);
    RecoverRows(if graceful then InterruptAll(db, now) else db, keep, reason, now);
  }

  // What a boot makes of the status of a step.
  function Booted(s: Status, keep: bool): Status {
    if s.Running? || s.Interrupted? || (!keep && s.Suspended?) then (if keep then Queued else Failed) else s
  }

  // And of a run.
  function BootedRun(s: Status, keep: bool): Status {
    if s.Running? || s.Interrupted? then (if keep then Queued else Failed) else s
  }

  lemma BootStep(s: Step, s1: Step, keep: bool, reason: Str, now: int)
    requires SweptFrom(s, s1)
    ensures var s2 := RecoveredStep(s1, keep, reason, now); s2.deps == s.deps && s2.ord == s.ord && s2.status == Booted(s.status, keep)
  {
  }

  // Row by row, whether the process swept before it ended or not.
  lemma BootRow(db: Db, graceful: bool, keep: bool, reason: Str, now: int, id: StepId)
    requires Rows(db)
    ensures var db1 := Reboot(db, graceful, keep, reason, now);
      && (id in db1.steps <==> id in db.steps && !db.runs[id.run].ephemeral)
      && (id in db1.steps ==>
            && db1.steps[id].deps == db.steps[id].deps && db1.steps[id].ord == db.steps[id].ord
            && db1.steps[id].status == Booted(db.steps[id].status, keep))
  {
    var mid, db1 := if graceful then InterruptAll(db, now) else db, Reboot(db, graceful, keep, reason, now);
    SweptRows(db, now);
    if id in db1.steps {
      assert db1.steps[id] == RecoveredStep(mid.steps[id], keep, reason, now);
      BootStep(db.steps[id], mid.steps[id], keep, reason, now);
    }
  }

  lemma BootRun(db: Db, graceful: bool, keep: bool, reason: Str, now: int, run: Str)
    ensures var db1 := Reboot(db, graceful, keep, reason, now);
      && (run in db1.runs <==> run in db.runs && !db.runs[run].ephemeral)
      && (run in db1.runs ==> db1.runs[run].status == BootedRun(db.runs[run].status, keep))
  {
    var mid, db1 := if graceful then InterruptAll(db, now) else db, Reboot(db, graceful, keep, reason, now);
    if run in db1.runs {
      assert db1.runs[run] == RecoveredRun(mid.runs[run], keep, reason, now);
    }
  }

  // The same, for all rows of a run.
  ghost predicate BootedRows(db: Db, db1: Db, keep: bool, run: Str) {
    && SameShape(db, db1, run)
    && forall id {:trigger db1.steps[id]} | id in db.steps && id.run == run :: db1.steps[id].status == Booted(db.steps[id].status, keep)
  }

  lemma BootShape(db: Db, graceful: bool, keep: bool, reason: Str, now: int, run: Str)
    requires Rows(db) && run in db.runs && !db.runs[run].ephemeral
    ensures BootedRows(db, Reboot(db, graceful, keep, reason, now), keep, run)
  {
    forall id: StepId | id.run == run {
      BootRow(db, graceful, keep, reason, now, id);
    }
  }

  // The steps a boot requeues had been started: their dependencies must still stand.
  ghost predicate BootHolds(db: Db, keep: bool, run: Str) {
    keep ==> forall id | id in db.steps && id.run == run && db.steps[id].status.Interrupted? :: DepsSucceeded(db.steps, id)
  }

  lemma BootedDeps(db: Db, db1: Db, keep: bool, run: Str, id: StepId)
    requires BootedRows(db, db1, keep, run) && id in db.steps && id.run == run
    ensures id in db1.steps && (DepsSucceeded(db1.steps, id) <==> DepsSucceeded(db.steps, id))
  {
    forall d | d in db.steps[id].deps
      ensures StepId(run, d) in db1.steps && db1.steps[StepId(run, d)].status.Succeeded?
         <==> StepId(run, d) in db.steps && db.steps[StepId(run, d)].status.Succeeded?
    {
    }
  }

  lemma BootedSafe(db: Db, db1: Db, keep: bool, run: Str)
    requires BootedRows(db, db1, keep, run) && RunSafe(db, run)
    ensures RunSafe(db1, run) <==> BootHolds(db, keep, run)
  {
    forall id | id in db.steps && id.run == run
      ensures id in db1.steps
      ensures DepsSafe(db1, id) <==> (keep && db.steps[id].status.Interrupted? ==> DepsSucceeded(db.steps, id))
    {
      BootedDeps(db, db1, keep, run, id);
      assert DepsSafe(db, id);
    }
  }

  // A boot keeps dependency safety exactly when no dependency of a step it requeues
  // has failed since the step was interrupted.
  lemma BootKeepsSafe(db: Db, graceful: bool, keep: bool, reason: Str, now: int, run: Str)
    requires Rows(db) && run in db.runs && !db.runs[run].ephemeral && RunSafe(db, run)
    ensures RunSafe(Reboot(db, graceful, keep, reason, now), run) <==> BootHolds(db, keep, run)
  {
    BootShape(db, graceful, keep, reason, now, run);
    BootedSafe(db, Reboot(db, graceful, keep, reason, now), keep, run);
  }

  // Recovered is a boot without the sweep before it.
  lemma BootOf(db: Db, op: Op)
    requires Boots(op)
    ensures Apply(db, op) == Reboot(db, op.Rebooted? && op.graceful, op.keep, op.reason, op.now)
  {
  }

  // ---- rows and shapes, whatever the operations were --------------------------------------

  lemma OpRows(db: Db, op: Op)
    requires Rows(db) && Enabled(db, op)
    ensures Rows(Apply(db, op))
  {
    if Boots(op) {
      BootOf(db, op);
      BootRows(db, op.Rebooted? && op.graceful, op.keep, op.reason, op.now);
    } else {
      OpCarries(db, op);
    }
  }

  lemma {:induction false} RowsAlways(ops: seq<Op>)
    requires Legal(ops)
    ensures Rows(Exec(ops))
  {
    if ops != [] {
      RowsAlways(ops[..|ops| - 1]);
      OpRows(Exec(ops[..|ops| - 1]), ops[|ops| - 1]);
    }
  }

  lemma OpShapes(db: Db, op: Op, run: Str)
    requires Rows(db) && Enabled(db, op) && (run in db.runs ==> RunShaped(db, run)) && run in Apply(db, op).runs
    ensures RunShaped(Apply(db, op), run)
  {
    if Boots(op) {
      BootOf(db, op);
      BootRun(db, op.Rebooted? && op.graceful, op.keep, op.reason, op.now, run);
      BootShape(db, op.Rebooted? && op.graceful, op.keep, op.reason, op.now, run);
      ShapeKept(db, Apply(db, op), run);
    } else {
      OpCarries(db, op);
      assert Carried(db, Apply(db, op), run);
    }
  }

  // Every run has steps with orders of their own, whose dependencies are known and
  // without a cycle.
  lemma {:induction false} ShapedAlways(ops: seq<Op>, run: Str)
    requires Legal(ops) && run in Exec(ops).runs
    ensures RunShaped(Exec(ops), run)
  {
    if ops != [] {
      var front := ops[..|ops| - 1];
      RowsAlways(front);
      if run in Exec(front).runs {
        ShapedAlways(front, run);
      }
      OpShapes(Exec(front), ops[|ops| - 1], run);
    }
  }

  // ---- dependency safety --------------------------------------------------------------------

  // The boots of a history requeue steps of the run only on dependencies that stand.
  ghost predicate SafeBoots(ops: seq<Op>, run: Str) {
    ops == [] ||
    (var front, op := ops[..|ops| - 1], ops[|ops| - 1];
     SafeBoots(front, run) && (Boots(op) ==> BootHolds(Exec(front), op.keep, run)))
  }

  lemma SettledHolds(db: Db, keep: bool, run: Str)
    requires Settled(db)
    ensures BootHolds(db, keep, run)
  {
  }

  // As they do when processes end and boot again as a whole.
  lemma {:induction false} SessionsBootSafely(ops: seq<Op>, run: Str)
    requires Legal(ops) && forall op | op in ops :: SessionOp(op)
    ensures SafeBoots(ops, run)
  {
    if ops != [] {
      var front, op := ops[..|ops| - 1], ops[|ops| - 1];
      assert op in ops && forall o | o in front :: o in ops;
      SessionsBootSafely(front, run);
      SessionsSettle(front);
      if Boots(op) {
        SettledHolds(Exec(front), op.keep, run);
      }
    }
  }

  lemma OpSafe(db: Db, op: Op, run: Str)
    requires Rows(db) && Enabled(db, op) && (run in db.runs ==> RunShaped(db, run) && RunSafe(db, run)) && run in Apply(db, op).runs
    requires Boots(op) ==> BootHolds(db, op.keep, run)
    ensures RunSafe(Apply(db, op), run)
  {
    if Boots(op) {
      BootOf(db, op);
      BootRun(db, op.Rebooted? && op.graceful, op.keep, op.reason, op.now, run);
      BootKeepsSafe(db, op.Rebooted? && op.graceful, op.keep, op.reason, op.now, run);
    } else {
      OpCarries(db, op);
      assert Carried(db, Apply(db, op), run);
    }
  }

  lemma {:induction false} SafeAlways(ops: seq<Op>, run: Str)
    requires Legal(ops) && SafeBoots(ops, run) && run in Exec(ops).runs
    ensures RunSafe(Exec(ops), run)
  {
    if ops != [] {
      var front := ops[..|ops| - 1];
      RowsAlways(front);
      if run in Exec(front).runs {
        SafeAlways(front, run);
        ShapedAlways(front, run);
      }
      OpSafe(Exec(front), ops[|ops| - 1], run);
    }
  }

  // A step that is queued, executing or suspended has every dependency SUCCEEDED.
  lemma DependencySafety(ops: seq<Op>, id: StepId)
    requires Legal(ops) && SafeBoots(ops, id.run)
    requires id in Exec(ops).steps && IsStarted(Exec(ops).steps[id].status)
    ensures DepsSucceeded(Exec(ops).steps, id)
  {
    RowsAlways(ops);
    SafeAlways(ops, id.run);
    assert DepsSafe(Exec(ops), id);
  }

  // ---- pieces of enqueueing for others -----------------------------------------------------

  lemma PrepareRows(db: Db, a: Db, now: int)
    requires Rows(db) && Prepares(db, a, now)
    ensures Rows(a) && a.runs.Keys == db.runs.Keys
  {
    PrepareSteady(db, a, now);
    PrepareTame(db, a, now);
  }
}
