// The store as a state machine: the operations clients and executors perform,
// what each demands of its caller, and the states their sequences reach.

module Machine {
  import opened Names
  import opened Schema
  import opened Transitions
  import opened Enqueue

  datatype Op =
    | EnqueueRun(n: NewRun, now: int)
    | ClaimQueue(q: QueueClaim, cands: seq<Candidate>, c: Claimer, workerLabels: set<Str>)
    | StepDone(id: StepId, output: Str, now: int)
    | StepFailed(id: StepId, error: Str, deadLetter: bool, now: int)
    | StepRetried(id: StepId, error: Str, nextRunAt: int, now: int)
    | StepParked(id: StepId, error: Str, nextRunAt: int, now: int)
    | StepRequeued(id: StepId, now: int)
    | StepStopped(id: StepId, now: int)
    | AwaitRecorded(id: StepId, idx: nat, e: Entry, wait: Wait, resumeAt: int, now: int)
    | AwaitResumed(id: StepId, wait: Wait, resumeAt: int, now: int)
    | EntryAppended(id: StepId, idx: nat, e: Entry, now: int)
    | OnceCompleted(id: StepId, idx: nat, result: Str, now: int)
    | WaitTimedOut(id: StepId, idx: nat, now: int)
    | EventEmitted(event: Str, payload: Str, now: int)
    | RunCancelled(run: Str, now: int)
    | RunPaused(run: Str, now: int)
    | RunResumed(run: Str, now: int)
    | RunSnoozed(run: Str, until: int, now: int)
    | QueuePaused(queue: Str, now: int)
    | QueueResumed(queue: Str, now: int)
    | DeadLetterRetried(run: Str, now: int)
    | DeadLetterDismissed(run: Str, now: int)
    | RunsPurged(runIds: set<Str>, now: int)
    | LeasesReaped(ids: set<StepId>, now: int)
    | LeasesExtended(worker: Str, until: int, now: int)
    | WorkerClosed(worker: Str, now: int)
    | Interrupted(now: int)
    | Recovered(keep: bool, reason: Str, now: int)
    | Rebooted(graceful: bool, keep: bool, reason: Str, now: int)
  {
    function At(): int {
      if ClaimQueue? then c.now else now
    }
  }

  ghost function Apply(db: Db, op: Op): Db {
    match op
    case EnqueueRun(n, now) =>
      (match EnqueueOne(db, n, now) case Enqueued(db1, _, _) => db1 case Rejected(_) => db)
    case ClaimQueue(_, cands, c, _) => ClaimAll(db, cands, c)
    case StepDone(id, output, now) =>
      (match CompleteStep(db, id, output, now) case Some(r) => r.0 case None => db)
    case StepFailed(id, error, deadLetter, now) => FinalFail(db, id, error, deadLetter, now)
    case StepRetried(id, error, nextRunAt, _) => RetryStep(db, id, error, nextRunAt)
    case StepParked(id, error, nextRunAt, _) => ParkStep(db, id, error, nextRunAt)
    case StepRequeued(id, _) => RequeuePausedStep(db, id)
    case StepStopped(id, _) => StepCancelled(db, id)
    case AwaitRecorded(id, idx, e, wait, resumeAt, _) => SuspendWithJournal(db, id, idx, e, wait, resumeAt)
    case AwaitResumed(id, wait, resumeAt, _) => SuspendStep(db, id, wait, resumeAt)
    case EntryAppended(id, idx, e, _) => AppendJournal(db, id, idx, e)
    case OnceCompleted(id, idx, result, _) => CompleteOnce(db, id, idx, result)
    case WaitTimedOut(id, idx, _) => TimeoutWait(db, id, idx)
    case EventEmitted(event, payload, _) => DeliverEvent(db, event, payload)
    case RunCancelled(run, now) => CancelRun(db, run, now)
    case RunPaused(run, now) => PauseRun(db, run, now)
    case RunResumed(run, now) => ResumeRun(db, run, now)
    case RunSnoozed(run, until, _) => Snooze(db, run, until)
    case QueuePaused(queue, _) => db.(pausedQueues := db.pausedQueues + {queue})
    case QueueResumed(queue, _) => db.(pausedQueues := db.pausedQueues - {queue})
    case DeadLetterRetried(run, now) => RetryDeadLetter(db, run, now)
    case DeadLetterDismissed(run, _) => DismissDeadLetter(db, run)
    case RunsPurged(runIds, _) => DeleteRuns(db, runIds)
    case LeasesReaped(ids, now) => Reap(db, ids, now)
    case LeasesExtended(worker, until, _) => Heartbeat(db, worker, until)
    case WorkerClosed(worker, now) => InterruptWorker(db, worker, now)
    case Interrupted(now) => InterruptAll(db, now)
    case Recovered(keep, reason, now) => Recover(db, keep, reason, now)
    case Rebooted(graceful, keep, reason, now) => Reboot(db, graceful, keep, reason, now)
  }

  // What the engine ensures before it calls a transaction.
  ghost predicate Enabled(db: Db, op: Op) {
    match op
    case EnqueueRun(n, _) => WellFormed(n) && n.id !in db.runs
    case ClaimQueue(q, cands, c, workerLabels) => IsAnswer(db, q, cands, Budget(db, q, c.now), c.now, workerLabels)
    case StepRetried(id, _, _, _) => IsRunning(db, id) ==> db.steps[id].attempts < db.steps[id].maxAttempts
    case StepStopped(id, _) => !Live(db, id.run)
    case RunsPurged(runIds, _) => forall r | r in runIds :: Purgeable(db, r)
    case _ => true
  }

  // The database a sequence of operations leaves, starting from an empty one.
  ghost function Exec(ops: seq<Op>): Db {
    if ops == [] then EMPTY else Apply(Exec(ops[..|ops| - 1]), ops[|ops| - 1])
  }

  function Clock(ops: seq<Op>): int {
    if ops == [] then 0 else ops[|ops| - 1].At()
  }

  // Callers keep their obligations and the clock never runs backwards.
  ghost predicate Legal(ops: seq<Op>) {
    ops == [] ||
    (var front, last := ops[..|ops| - 1], ops[|ops| - 1];
     Legal(front) && Enabled(Exec(front), last) && last.At() > 0 && last.At() >= Clock(front))
  }

  lemma ClockNonNegative(ops: seq<Op>)
    requires Legal(ops)
    ensures Clock(ops) >= 0
  {
  }

  // ---- several queues in one transaction -----------------------------------------------

  function ServeAll(db: Db, answers: seq<seq<Candidate>>, c: Claimer): Db
    decreases |answers|
  {
    if answers == [] then db
    else ClaimAll(ServeAll(db, answers[..|answers| - 1], c), answers[|answers| - 1], c)
  }

  function ServeLog(db: Db, answers: seq<seq<Candidate>>, c: Claimer): seq<StepId>
    decreases |answers|
  {
    if answers == [] then []
    else
      var front := answers[..|answers| - 1];
      ServeLog(db, front, c) + ClaimLog(ServeAll(db, front, c), answers[|answers| - 1], c)
  }

  // Each queue's candidates are queried after the queues before it were served.
  ghost predicate Answered(db: Db, queues: seq<QueueClaim>, answers: seq<seq<Candidate>>, c: Claimer, labels: set<Str>)
    decreases |answers|
  {
    && |answers| == |queues|
    && (answers == [] ||
        (var k := |answers| - 1;
         var mid := ServeAll(db, answers[..k], c);
         && Answered(db, queues[..k], answers[..k], c, labels)
         && IsAnswer(mid, queues[k], answers[k], Budget(mid, queues[k], c.now), c.now, labels)))
  }

  function ClaimOps(queues: seq<QueueClaim>, answers: seq<seq<Candidate>>, c: Claimer, labels: set<Str>): (ops: seq<Op>)
    requires |queues| == |answers|
    ensures |ops| == |queues|
    decreases |queues|
  {
    if queues == [] then []
    else
      var k := |queues| - 1;
      ClaimOps(queues[..k], answers[..k], c, labels) + [ClaimQueue(queues[k], answers[k], c, labels)]
  }

  lemma Extended(front: seq<Op>, db: Db, op: Op)
    requires Legal(front) && Exec(front) == db && Enabled(db, op) && op.At() > 0 && op.At() >= Clock(front)
    ensures Legal(front + [op]) && Exec(front + [op]) == Apply(db, op) && Clock(front + [op]) == op.At()
  {
    var ops := front + [op];
    assert ops[..|ops| - 1] == front && ops[|ops| - 1] == op;
  }

  lemma ClaimExtends(front: seq<Op>, db: Db, q: QueueClaim, cands: seq<Candidate>, c: Claimer, labels: set<Str>, ops: seq<Op>)
    requires Legal(front) && Exec(front) == db && IsAnswer(db, q, cands, Budget(db, q, c.now), c.now, labels)
    requires c.now > 0 && c.now >= Clock(front) && ops == front + [ClaimQueue(q, cands, c, labels)]
    ensures Legal(ops) && Clock(ops) == c.now && Exec(ops) == ClaimAll(db, cands, c)
  {
    assert ops[..|ops| - 1] == front && ops[|ops| - 1] == ClaimQueue(q, cands, c, labels);
  }

  // The batch is a run of single-queue claims at one instant, so what holds in
  // every reachable state holds throughout it.
  lemma {:induction false} BatchIsClaims(ops: seq<Op>, queues: seq<QueueClaim>, answers: seq<seq<Candidate>>, c: Claimer, labels: set<Str>)
    requires Legal(ops) && Answered(Exec(ops), queues, answers, c, labels) && c.now > 0 && c.now >= Clock(ops)
    ensures Legal(ops + ClaimOps(queues, answers, c, labels))
    ensures Exec(ops + ClaimOps(queues, answers, c, labels)) == ServeAll(Exec(ops), answers, c)
    ensures queues == [] || Clock(ops + ClaimOps(queues, answers, c, labels)) == c.now
  {
    Claiming(ops, Exec(ops), queues, answers, c, labels, ops + ClaimOps(queues, answers, c, labels));
  }

  lemma {:induction false} Claiming(ops: seq<Op>, db: Db, queues: seq<QueueClaim>, answers: seq<seq<Candidate>>, c: Claimer, labels: set<Str>, all: seq<Op>)
    requires Legal(ops) && Exec(ops) == db && Answered(db, queues, answers, c, labels) && c.now > 0 && c.now >= Clock(ops)
    requires all == ops + ClaimOps(queues, answers, c, labels)
    ensures Legal(all) && Exec(all) == ServeAll(db, answers, c) && (queues == [] || Clock(all) == c.now)
    decreases |queues|
  {
    if queues == [] {
      assert all == ops;
    } else {
      var k := |queues| - 1;
      var front := ops + ClaimOps(queues[..k], answers[..k], c, labels);
      Claiming(ops, db, queues[..k], answers[..k], c, labels, front);
      LastClaim(ops, queues, answers, c, labels, front, all);
      ClaimExtends(front, ServeAll(db, answers[..k], c), queues[k], answers[k], c, labels, all);
    }
  }

  lemma LastClaim(ops: seq<Op>, queues: seq<QueueClaim>, answers: seq<seq<Candidate>>, c: Claimer, labels: set<Str>, front: seq<Op>, all: seq<Op>)
    requires |queues| == |answers| > 0
    requires front == ops + ClaimOps(queues[..|queues| - 1], answers[..|queues| - 1], c, labels)
    requires all == ops + ClaimOps(queues, answers, c, labels)
    ensures all == front + [ClaimQueue(queues[|queues| - 1], answers[|queues| - 1], c, labels)]
    ensures |queues| == 1 ==> front == ops
  {
  }
}
