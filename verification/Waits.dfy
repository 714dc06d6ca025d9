// Durable waits in the store: a decided wait stays decided, and no event that is
// delivered to a waiting step is lost.

module Waits {
  import opened Names
  import opened Schema
  import opened Transitions
  import opened Enqueue
  import opened Machine
  import opened Frame
  import opened Progress
  import opened Bystanders

  // ---- what an executor knows --------------------------------------------------------

  // The journal an executor works from: loaded when its step is claimed, and
  // extended by its own writes. It does not see deliveries.
  ghost function Reloaded(db: Db, op: Op, id: StepId, l: seq<Entry>): seq<Entry> {
    match op
    case EnqueueRun(_, _) => if id in db.steps then l else []
    case ClaimQueue(_, cands, c, _) => if id in ClaimLog(db, cands, c) then Journal(db, id) else l
    case EntryAppended(j, idx, e, _) => if j == id && id in db.steps && idx == |Journal(db, id)| then l + [e] else l
    case AwaitRecorded(j, idx, e, _, _, _) => if j == id && IsRunning(db, id) && idx == |Journal(db, id)| then l + [e] else l
    case OnceCompleted(j, idx, result, _) => if j == id && idx < |l| then l[idx := l[idx].(done := true, result := result)] else l
    case _ => l
  }

  ghost function Loaded(ops: seq<Op>, id: StepId): seq<Entry> {
    if ops == [] then []
    else Reloaded(Exec(ops[..|ops| - 1]), ops[|ops| - 1], id, Loaded(ops[..|ops| - 1], id))
  }

  // What a suspension records.
  predicate Recordable(e: Entry, wait: Wait, resumeAt: int, now: int) {
    && !e.done && !e.timedOut
    && match wait
       case NoWait => false
       case SleepWait => e.kind.Sleep? && e.wakeAt == resumeAt > now
       case EventWait(event) => e.kind.WaitFor? && e.event == event && e.deadline == resumeAt && (resumeAt == 0 || resumeAt > now)
  }

  // The entry a replayed call suspends on again.
  predicate Resumable(e: Entry, wait: Wait, resumeAt: int, now: int) {
    match wait
    case NoWait => false
    case SleepWait => e.kind.Sleep? && e.wakeAt == resumeAt > now
    case EventWait(event) => e.kind.WaitFor? && !e.done && e.event == event && e.deadline == resumeAt && !Overdue(e, now)
  }

  predicate WaitsDone(j: seq<Entry>, n: int)
    requires n <= |j|
  {
    forall i | 0 <= i < n :: j[i].kind.WaitFor? ==> j[i].done
  }

  predicate IsSuspended(db: Db, id: StepId) {
    id in db.steps && db.steps[id].status.Suspended?
  }

  // How durable.go uses the journal, for a task that works from `l`. A task that
  // records a new await got past every earlier one.
  ghost predicate ByTheBook(db: Db, l: seq<Entry>, op: Op) {
    match op
    case AwaitRecorded(id, idx, e, wait, resumeAt, now) =>
      idx == |l| && Recordable(e, wait, resumeAt, now) && WaitsDone(Journal(db, id), |Journal(db, id)|)
    case AwaitResumed(id, wait, resumeAt, now) =>
      exists idx | 0 <= idx < |l| :: Resumable(l[idx], wait, resumeAt, now)
    case EntryAppended(id, idx, e, _) =>
      idx == |l| && !IsSuspended(db, id) && ((e.kind.Sleep? && e.done) || (e.kind.Once? && !e.done))
    case OnceCompleted(id, idx, _, _) =>
      idx < |l| && l[idx].kind.Once?
    case WaitTimedOut(id, idx, now) =>
      idx < |l| && l[idx].kind.WaitFor? && !l[idx].done && Overdue(l[idx], now) && !IsSuspended(db, id)
    case _ => true
  }

  predicate HasStep(op: Op) {
    op.AwaitRecorded? || op.AwaitResumed? || JournalOp(op)
  }

  predicate Overdue(e: Entry, now: int) {
    0 < e.deadline <= now
  }

  predicate AllOverdue(j: seq<Entry>, now: int) {
    forall i | 0 <= i < |j| :: j[i].kind.WaitFor? && !j[i].done ==> Overdue(j[i], now)
  }

  // No step of the run is still waiting, in its journal, for an event that may come.
  predicate NothingAwaited(db: Db, run: Str, now: int) {
    forall id | id in db.steps && id.run == run :: AllOverdue(Journal(db, id), now)
  }

  // A dead-lettered run is retried once nothing of its earlier life is awaited.
  predicate RetriedInTime(db: Db, op: Op) {
    op.DeadLetterRetried? && IsDeadLetter(db, op.run) ==> NothingAwaited(db, op.run, op.now)
  }

  ghost predicate Disciplined(ops: seq<Op>) {
    ops == [] ||
    (var front, op := ops[..|ops| - 1], ops[|ops| - 1];
     && Disciplined(front)
     && RetriedInTime(Exec(front), op)
     && (HasStep(op) ==> ByTheBook(Exec(front), Loaded(front, op.id), op)))
  }

  lemma ExtendedLoad(front: seq<Op>, db: Db, op: Op, id: StepId)
    requires Exec(front) == db
    ensures Loaded(front + [op], id) == Reloaded(db, op, id, Loaded(front, id))
  {
    var ops := front + [op];
    assert ops[..|ops| - 1] == front && ops[|ops| - 1] == op;
  }

  lemma ExtendedDiscipline(front: seq<Op>, db: Db, op: Op)
    requires Disciplined(front) && Exec(front) == db && RetriedInTime(db, op)
    requires HasStep(op) ==> ByTheBook(db, Loaded(front, op.id), op)
    ensures Disciplined(front + [op])
  {
    var ops := front + [op];
    assert ops[..|ops| - 1] == front && ops[|ops| - 1] == op;
  }

  // ---- the invariant -------------------------------------------------------------------

  // The executor's copy lags behind the rows only in what it takes for undone.
  predicate Tracks(l: seq<Entry>, j: seq<Entry>) {
    |l| == |j| && forall i | 0 <= i < |l| :: SameAwait(l[i], j[i]) && (l[i].done ==> j[i].done)
  }

  // A step that waits for an event: its last entry is that wait, undecided, and
  // its resume time is the wait's deadline.
  predicate Bound(s: Step, j: seq<Entry>, event: Str) {
    && j != []
    && Awaits(j[|j| - 1], event) && j[|j| - 1].deadline == s.resumeAt
    && WaitsDone(j, |j| - 1)
  }

  predicate Sound(s: Step, j: seq<Entry>, l: seq<Entry>, now: int) {
    && Tracks(l, j)
    && (s.status.Running? ==> AllOverdue(l, now))
    && (Awake(s) ==> AllOverdue(j, now))
    && (s.status.Suspended? ==> if s.wait.EventWait? then Bound(s, j, s.wait.event) else AllOverdue(j, now))
  }

  ghost predicate WaitInv(db: Db, id: StepId, l: seq<Entry>, now: int) {
    id in db.steps ==> Sound(db.steps[id], Journal(db, id), l, now)
  }

  // ---- preservation ----------------------------------------------------------------------

  lemma StaysSound(s: Step, s1: Step, j: seq<Entry>, l: seq<Entry>, clock: int, now: int)
    requires Sound(s, j, l, clock) && clock <= now
    requires (s1.status.Running? ==> s.status.Running?) && (Awake(s1) ==> Awake(s))
    requires s1.status.Suspended? ==> s.status.Suspended? && s1.wait == s.wait && s1.resumeAt == s.resumeAt
    ensures Sound(s1, j, l, now)
  {
  }

  lemma UndisturbedWaits(db: Db, db1: Db, id: StepId, l: seq<Entry>, clock: int, now: int)
    requires WaitInv(db, id, l, clock) && clock <= now && Undisturbed(db, db1)
    ensures WaitInv(db1, id, l, now)
  {
    if id in db1.steps {
      assert Untouched(db.steps[id], db1.steps[id]);
      StaysSound(db.steps[id], db1.steps[id], Journal(db, id), l, clock, now);
    }
  }

  lemma RequeueWaits(db: Db, op: Op, id: StepId, l: seq<Entry>, clock: int)
    requires (op.StepParked? || op.StepRequeued?) && WaitInv(db, id, l, clock) && clock <= op.now
    ensures WaitInv(Apply(db, op), id, l, op.now)
  {
    if id in db.steps {
      StaysSound(db.steps[id], Apply(db, op).steps[id], Journal(db, id), l, clock, op.now);
    }
  }

  // A claimed step has no undecided wait whose deadline lies ahead.
  lemma ClaimedSound(s: Step, resumed: bool, c: Claimer, j: seq<Entry>, l: seq<Entry>, clock: int)
    requires Sound(s, j, l, clock) && clock <= c.now
    requires if resumed then ResumeDue(s, c.now) else s.status.Queued?
    ensures Sound(ClaimedStep(s, resumed, c), j, j, c.now)
  {
  }

  lemma ClaimWaits(db: Db, cand: Candidate, c: Claimer, id: StepId, l: seq<Entry>, clock: int)
    requires WaitInv(db, id, l, clock) && clock <= c.now
    ensures var claimed := cand.id == id && Claimable(db, id, cand.resumed, c.now);
      WaitInv(ClaimOne(db, cand.id, cand.resumed, c), id, if claimed then Journal(db, id) else l, c.now)
    ensures ClaimOne(db, cand.id, cand.resumed, c).journal == db.journal
  {
    if id in db.steps {
      if cand.id == id && Claimable(db, id, cand.resumed, c.now) {
        ClaimedSound(db.steps[id], cand.resumed, c, Journal(db, id), l, clock);
      } else {
        StaysSound(db.steps[id], db.steps[id], Journal(db, id), l, clock, c.now);
      }
    }
  }

  lemma {:induction false} ClaimAllWaits(db: Db, cands: seq<Candidate>, c: Claimer, id: StepId, l: seq<Entry>, clock: int)
    requires WaitInv(db, id, l, clock) && clock <= c.now
    ensures WaitInv(ClaimAll(db, cands, c), id, if id in ClaimLog(db, cands, c) then Journal(db, id) else l, c.now)
    ensures ClaimAll(db, cands, c).journal == db.journal
    decreases |cands|
  {
    if cands == [] {
      if id in db.steps {
        StaysSound(db.steps[id], db.steps[id], Journal(db, id), l, clock, c.now);
      }
    } else {
      var front, last := cands[..|cands| - 1], cands[|cands| - 1];
      var mid, log := ClaimAll(db, front, c), ClaimLog(db, front, c);
      ClaimAllWaits(db, front, c, id, l, clock);
      ClaimWaits(mid, last, c, id, if id in log then Journal(db, id) else l, c.now);
      assert Journal(mid, id) == Journal(db, id);
    }
  }

  lemma Appended(j: seq<Entry>, l: seq<Entry>, e: Entry, now: int)
    requires Tracks(l, j)
    ensures Tracks(l + [e], j + [e])
    ensures AllOverdue(j, now) && (e.kind.WaitFor? && !e.done ==> Overdue(e, now)) ==> AllOverdue(j + [e], now)
  {
  }

  lemma RecordWaits(db: Db, op: Op, id: StepId, l: seq<Entry>, clock: int)
    requires op.AwaitRecorded? && WaitInv(db, id, l, clock) && clock <= op.now
    requires op.id == id ==> ByTheBook(db, l, op)
    ensures WaitInv(Apply(db, op), id, Reloaded(db, op, id, l), op.now)
  {
    if id in db.steps {
      var j := Journal(db, id);
      if op.id == id && IsRunning(db, id) && op.idx == |j| {
        Appended(j, l, op.e, op.now);
      } else {
        StaysSound(db.steps[id], db.steps[id], j, l, clock, op.now);
      }
    }
  }

  // A task never suspends again on a wait: by the time it runs, the wait is
  // decided or overdue.
  lemma OnlySleepsResume(s: Step, j: seq<Entry>, l: seq<Entry>, wait: Wait, resumeAt: int, clock: int, now: int)
    requires Sound(s, j, l, clock) && clock <= now && s.status.Running?
    requires exists idx | 0 <= idx < |l| :: Resumable(l[idx], wait, resumeAt, now)
    ensures wait.SleepWait?
  {
    var idx :| 0 <= idx < |l| && Resumable(l[idx], wait, resumeAt, now);
  }

  lemma ResumeWaits(db: Db, op: Op, id: StepId, l: seq<Entry>, clock: int)
    requires op.AwaitResumed? && WaitInv(db, id, l, clock) && clock <= op.now
    requires op.id == id ==> ByTheBook(db, l, op)
    ensures WaitInv(Apply(db, op), id, l, op.now)
  {
    if id in db.steps {
      if op.id == id && IsRunning(db, id) {
        OnlySleepsResume(db.steps[id], Journal(db, id), l, op.wait, op.resumeAt, clock, op.now);
      }
    }
  }

  lemma AppendWaits(db: Db, op: Op, id: StepId, l: seq<Entry>, clock: int)
    requires op.EntryAppended? && WaitInv(db, id, l, clock) && clock <= op.now
    requires op.id == id ==> ByTheBook(db, l, op)
    ensures WaitInv(Apply(db, op), id, Reloaded(db, op, id, l), op.now)
  {
    if id in db.steps {
      Appended(Journal(db, id), l, op.e, op.now);
      Appended(l, l, op.e, op.now);
    }
  }

  lemma OnceWaits(db: Db, op: Op, id: StepId, l: seq<Entry>, clock: int)
    requires op.OnceCompleted? && WaitInv(db, id, l, clock) && clock <= op.now
    requires op.id == id ==> ByTheBook(db, l, op)
    ensures WaitInv(Apply(db, op), id, Reloaded(db, op, id, l), op.now)
  {
    if id in db.steps {
      var j := Journal(db, id);
      if op.id == id {
        var j1 := j[op.idx := j[op.idx].(done := true, result := op.result)];
        assert forall i | 0 <= i < |j| :: j[i].kind.WaitFor? ==> j1[i] == j[i];
      }
    }
  }

  lemma TimeoutWaits(db: Db, op: Op, id: StepId, l: seq<Entry>, clock: int)
    requires op.WaitTimedOut? && WaitInv(db, id, l, clock) && clock <= op.now
    requires op.id == id ==> ByTheBook(db, l, op)
    ensures WaitInv(Apply(db, op), id, l, op.now)
  {
  }

  // Of a step that waits for an event, only that event's delivery finds an entry.
  lemma DeliverWaits(db: Db, event: Str, payload: Str, id: StepId, l: seq<Entry>, clock: int, now: int)
    requires WaitInv(db, id, l, clock) && clock <= now
    ensures WaitInv(DeliverEvent(db, event, payload), id, l, now)
  {
    if id in db.steps {
      var s, j := db.steps[id], Journal(db, id);
      var db1 := DeliverEvent(db, event, payload);
      if !Reachable(db, id) {
        StaysSound(s, s, j, l, clock, now);
      } else {
        var j1 := DeliverJournal(j, event, payload);
        assert Journal(db1, id) == j1;
        DeliverSound(s, j, l, event, payload, clock, now);
        if Woken(db, id, event) {
          assert db1.steps[id] == WokenStep(s);
        } else {
          assert j1 == j;
          StaysSound(s, s, j, l, clock, now);
        }
      }
    }
  }

  lemma DeliverSound(s: Step, j: seq<Entry>, l: seq<Entry>, event: Str, payload: Str, clock: int, now: int)
    requires Sound(s, j, l, clock) && clock <= now
    ensures (exists i :: 0 <= i < |j| && Awaits(j[i], event)) ==> Sound(WokenStep(s), DeliverJournal(j, event, payload), l, now)
  {
    var j1 := DeliverJournal(j, event, payload);
    assert forall i | 0 <= i < |j| :: j1[i] == DeliverEntry(j[i], event, payload);
    assert Tracks(l, j1);
    if exists i :: 0 <= i < |j| && Awaits(j[i], event) {
      var i :| 0 <= i < |j| && Awaits(j[i], event);
      if s.status.Suspended? && s.wait.EventWait? {
        assert i == |j| - 1;
        assert WaitsDone(j1, |j1|);
      }
    }
  }

  lemma InsertWaits(db: Db, m: NewRun, id: StepId, l: seq<Entry>, now: int)
    requires Rows(db) && m.id !in db.runs && (forall name | name in m.steps :: WellFormedStep(m.steps[name]))
    requires WaitInv(db, id, l, now)
    ensures WaitInv(Inserted(db, m), id, if id in db.steps then l else [], now)
  {
    if id.run == m.id && id.name in m.steps {
      assert WellFormedStep(m.steps[id.name]) && id !in db.steps && id !in db.journal;
    }
  }

  lemma StrategyWaits(db: Db, n: NewRun, id: StepId, l: seq<Entry>, now: int)
    requires WaitInv(db, id, l, now)
    ensures WaitInv(CancelAll(db, StrategyVictims(db, n), now), id, l, now)
  {
    CancelAllUndisturbed(db, StrategyVictims(db, n), now);
    UndisturbedWaits(db, CancelAll(db, StrategyVictims(db, n), now), id, l, now, now);
  }

  lemma PrepareWaits(db0: Db, a: Db, id: StepId, l: seq<Entry>, clock: int, now: int)
    requires Prepares(db0, a, now) && WaitInv(db0, id, l, clock) && clock <= now
    ensures WaitInv(a, id, l, now) && (id in a.steps <==> id in db0.steps)
  {
    PrepareUndisturbed(db0, a, now);
    PrepareSteady(db0, a, now);
    UndisturbedWaits(db0, a, id, l, clock, now);
  }

  lemma PartsWait(db0: Db, m: NewRun, now: int, out: Outcome, a: Db, inserted: bool, id: StepId, l: seq<Entry>, clock: int)
    requires Enqueues(db0, m, now, out, a, inserted) && Rows(db0) && m.id !in db0.runs && clock <= now
    requires forall name | name in m.steps :: WellFormedStep(m.steps[name])
    requires WaitInv(db0, id, l, clock)
    ensures WaitInv(out.db, id, if id in db0.steps then l else [], now)
  {
    if inserted {
      PrepareWaits(db0, a, id, l, clock, now);
      PrepareRows(db0, a, now);
      InsertWaits(a, m, id, l, now);
      StrategyWaits(Inserted(a, m), m, id, if id in db0.steps then l else [], now);
    } else if id in db0.steps {
      StaysSound(db0.steps[id], db0.steps[id], Journal(db0, id), l, clock, now);
    }
  }

  lemma NumberedWaits(db: Db, n: NewRun, id: StepId, l: seq<Entry>, clock: int)
    requires Rows(db) && WaitInv(db, id, l, clock)
    ensures Rows(Numbered(db, n)) && WaitInv(Numbered(db, n), id, l, clock)
    ensures Numbered(db, n).steps == db.steps && Numbered(db, n).runs == db.runs
  {
  }

  lemma EnqueueWaits(db: Db, n: NewRun, now: int, id: StepId, l: seq<Entry>, clock: int)
    requires Rows(db) && WellFormed(n) && n.id !in db.runs && WaitInv(db, id, l, clock) && clock <= now
    ensures var out := EnqueueOne(db, n, now);
      WaitInv(if out.Enqueued? then out.db else db, id, if id in db.steps then l else [], now)
  {
    if EnqueueOne(db, n, now).Enqueued? {
      var a, inserted := EnqueueParts(db, n, now);
      StampedWell(n, db.next + 1);
      NumberedWaits(db, n, id, l, clock);
      PartsWait(Numbered(db, n), Stamped(n, db.next + 1), now, EnqueueOne(db, n, now), a, inserted, id, l, clock);
    } else if id in db.steps {
      StaysSound(db.steps[id], db.steps[id], Journal(db, id), l, clock, now);
    }
  }

  // Retrying a dead letter keeps the invariant of a step of the run exactly when the
  // step's journal awaits nothing, and that of every other step in any case.
  lemma RetryWaits(db: Db, run: Str, id: StepId, l: seq<Entry>, clock: int, now: int)
    requires IsDeadLetter(db, run) && WaitInv(db, id, l, clock) && clock <= now
    ensures WaitInv(RetryDeadLetter(db, run, now), id, l, now) <==>
      (id in db.steps && id.run == run ==> AllOverdue(Journal(db, id), now))
  {
    var db1 := RetryDeadLetter(db, run, now);
    if id in db.steps {
      assert Journal(db1, id) == Journal(db, id);
      if id.run == run {
        assert db1.steps[id] == ResetStep(db.steps[id], now);
      } else {
        StaysSound(db.steps[id], db.steps[id], Journal(db, id), l, clock, now);
      }
    }
  }

  lemma DeadLetterWaits(db: Db, op: Op, id: StepId, l: seq<Entry>, clock: int)
    requires op.DeadLetterRetried? && RetriedInTime(db, op) && WaitInv(db, id, l, clock) && clock <= op.now
    ensures WaitInv(Apply(db, op), id, l, op.now)
  {
    if IsDeadLetter(db, op.run) {
      RetryWaits(db, op.run, id, l, clock, op.now);
    } else if id in db.steps {
      StaysSound(db.steps[id], db.steps[id], Journal(db, id), l, clock, op.now);
    }
  }

  lemma StepOpWaits(db: Db, op: Op, id: StepId, l: seq<Entry>, clock: int)
    requires WaitInv(db, id, l, clock) && clock <= op.At()
    requires op.StepParked? || op.StepRequeued? || HasStep(op)
    requires HasStep(op) && op.id == id ==> ByTheBook(db, l, op)
    ensures WaitInv(Apply(db, op), id, Reloaded(db, op, id, l), op.At())
  {
    match op
    case AwaitRecorded(_, _, _, _, _, _) => RecordWaits(db, op, id, l, clock);
    case AwaitResumed(_, _, _, _) => ResumeWaits(db, op, id, l, clock);
    case EntryAppended(_, _, _, _) => AppendWaits(db, op, id, l, clock);
    case OnceCompleted(_, _, _, _) => OnceWaits(db, op, id, l, clock);
    case WaitTimedOut(_, _, _) => TimeoutWaits(db, op, id, l, clock);
    case _ => RequeueWaits(db, op, id, l, clock);
  }

  lemma BystanderWaits(db: Db, op: Op, id: StepId, l: seq<Entry>, clock: int)
    requires BystanderOp(op) && WaitInv(db, id, l, clock) && clock <= op.At()
    ensures WaitInv(Apply(db, op), id, Reloaded(db, op, id, l), op.At())
  {
    OpUndisturbed(db, op);
    UndisturbedWaits(db, Apply(db, op), id, l, clock, op.At());
  }

  lemma OpWaits(db: Db, op: Op, id: StepId, l: seq<Entry>, clock: int)
    requires Rows(db) && Enabled(db, op) && WaitInv(db, id, l, clock) && clock <= op.At()
    requires RetriedInTime(db, op) && (HasStep(op) && op.id == id ==> ByTheBook(db, l, op))
    ensures WaitInv(Apply(db, op), id, Reloaded(db, op, id, l), op.At())
  {
    if op.EnqueueRun? {
      EnqueueWaits(db, op.n, op.now, id, l, clock);
    } else if op.ClaimQueue? {
      ClaimAllWaits(db, op.cands, op.c, id, l, clock);
    } else if op.EventEmitted? {
      DeliverWaits(db, op.event, op.payload, id, l, clock, op.now);
    } else if op.DeadLetterRetried? {
      DeadLetterWaits(db, op, id, l, clock);
    } else if BystanderOp(op) {
      BystanderWaits(db, op, id, l, clock);
    } else {
      StepOpWaits(db, op, id, l, clock);
    }
  }

  // ---- over whole runs of the store --------------------------------------------------------

  lemma {:induction false} WaitsAlways(ops: seq<Op>, id: StepId)
    requires Legal(ops) && Disciplined(ops)
    ensures WaitInv(Exec(ops), id, Loaded(ops, id), Clock(ops))
  {
    if ops != [] {
      var front := ops[..|ops| - 1];
      WaitsAlways(front, id);
      RowsAlways(front);
      OpWaits(Exec(front), ops[|ops| - 1], id, Loaded(front, id), Clock(front));
    }
  }

  // What is known of a step after an operation its executor takes no part in.
  ghost predicate StillSound(ops: seq<Op>, db1: Db, id: StepId, now: int) {
    WaitInv(db1, id, Loaded(ops, id), now)
  }

  lemma RetriedStep(ops: seq<Op>, db: Db, db1: Db, run: Str, id: StepId, now: int)
    requires Legal(ops) && Disciplined(ops) && db == Exec(ops) && IsDeadLetter(db, run) && Clock(ops) <= now
    requires db1 == RetryDeadLetter(db, run, now)
    ensures StillSound(ops, db1, id, now) <==> (id in db.steps && id.run == run ==> AllOverdue(Journal(db, id), now))
  {
    WaitsAlways(ops, id);
    RetryWaits(db, run, id, Loaded(ops, id), Clock(ops), now);
  }

  // So a retry keeps the invariant of every step exactly when it comes in time.
  lemma RetriesInTime(ops: seq<Op>, db: Db, db1: Db, run: Str, now: int)
    requires Legal(ops) && Disciplined(ops) && db == Exec(ops) && IsDeadLetter(db, run) && Clock(ops) <= now
    requires db1 == RetryDeadLetter(db, run, now)
    ensures NothingAwaited(db, run, now) <==> forall id :: StillSound(ops, db1, id, now)
  {
    forall id
      ensures StillSound(ops, db1, id, now) <==> (id in db.steps && id.run == run ==> AllOverdue(Journal(db, id), now))
    {
      RetriedStep(ops, db, db1, run, id, now);
    }
  }

  // Every step that is SUSPENDED for an event has an undecided entry for it, and
  // resumes on its own exactly at that entry's deadline.
  lemma SuspendedWaitsAreBound(ops: seq<Op>, id: StepId)
    requires Legal(ops) && Disciplined(ops)
    requires IsSuspended(Exec(ops), id) && Exec(ops).steps[id].wait.EventWait?
    ensures var s, j := Exec(ops).steps[id], Journal(Exec(ops), id);
      j != [] && Awaits(j[|j| - 1], s.wait.event) && j[|j| - 1].deadline == s.resumeAt
  {
    WaitsAlways(ops, id);
  }

  // After a delivery no SUSPENDED step of a live run still waits on the event.
  lemma NoLostWakeup(ops: seq<Op>, event: Str, payload: Str, id: StepId)
    requires Legal(ops) && Disciplined(ops)
    requires var db1 := DeliverEvent(Exec(ops), event, payload); IsSuspended(db1, id) && Live(db1, id.run)
    ensures DeliverEvent(Exec(ops), event, payload).steps[id].wait != EventWait(event)
  {
    var db := Exec(ops);
    if db.steps[id].status.Suspended? && db.steps[id].wait == EventWait(event) {
      SuspendedWaitsAreBound(ops, id);
      assert Awaits(Journal(db, id)[|Journal(db, id)| - 1], event);
      assert Woken(db, id, event);
    }
  }

  // A running task is never put back to sleep on a wait.
  lemma WaitsAreNotResumed(ops: seq<Op>, op: Op)
    requires Legal(ops) && Disciplined(ops) && op.AwaitResumed? && Clock(ops) <= op.now
    requires IsRunning(Exec(ops), op.id) && ByTheBook(Exec(ops), Loaded(ops, op.id), op)
    ensures op.wait.SleepWait?
  {
    WaitsAlways(ops, op.id);
    OnlySleepsResume(Exec(ops).steps[op.id], Journal(Exec(ops), op.id), Loaded(ops, op.id), op.wait, op.resumeAt, Clock(ops), op.now);
  }

  // ---- decided waits --------------------------------------------------------------------------

  // The decided waits of a journal, as they are in a later one.
  ghost predicate Decided(j: seq<Entry>, j1: seq<Entry>) {
    && |j| <= |j1|
    && forall i | 0 <= i < |j| && j[i].kind.WaitFor? && j[i].done :: j1[i] == j[i]
  }

  lemma JournalDecided(db: Db, op: Op, id: StepId, l: seq<Entry>)
    requires HasStep(op) && id in db.steps && Tracks(l, Journal(db, id)) && (op.id == id ==> ByTheBook(db, l, op))
    ensures Decided(Journal(db, id), Journal(Apply(db, op), id))
  {
  }

  lemma DeliverDecided(db: Db, event: Str, payload: Str, id: StepId)
    ensures Decided(Journal(db, id), Journal(DeliverEvent(db, event, payload), id))
  {
  }

  lemma {:induction false} ClaimAllDecided(db: Db, cands: seq<Candidate>, c: Claimer)
    ensures ClaimAll(db, cands, c).journal == db.journal
    decreases |cands|
  {
    if cands != [] {
      ClaimAllDecided(db, cands[..|cands| - 1], c);
    }
  }

  lemma EnqueueDecided(db: Db, n: NewRun, now: int, id: StepId)
    requires id in db.steps && EnqueueOne(db, n, now).Enqueued? && id in EnqueueOne(db, n, now).db.steps
    ensures Decided(Journal(db, id), Journal(EnqueueOne(db, n, now).db, id))
  {
    var a, inserted := EnqueueParts(db, n, now);
    var m := Stamped(n, db.next + 1);
    if inserted {
      PrepareUndisturbed(Numbered(db, n), a, now);
      PrepareSteady(Numbered(db, n), a, now);
      CancelAllUndisturbed(Inserted(a, m), StrategyVictims(Inserted(a, m), m), now);
    }
  }

  lemma RequeueDecided(db: Db, op: Op, id: StepId)
    requires op.StepParked? || op.StepRequeued?
    ensures Journal(Apply(db, op), id) == Journal(db, id)
  {
  }

  lemma BystanderDecided(db: Db, op: Op, id: StepId)
    requires BystanderOp(op) && id in Apply(db, op).steps
    ensures Journal(Apply(db, op), id) == Journal(db, id)
  {
    OpUndisturbed(db, op);
  }

  lemma OpDecided(db: Db, op: Op, id: StepId, l: seq<Entry>)
    requires id in db.steps && id in Apply(db, op).steps && Tracks(l, Journal(db, id))
    requires HasStep(op) && op.id == id ==> ByTheBook(db, l, op)
    ensures Decided(Journal(db, id), Journal(Apply(db, op), id))
  {
    if op.EnqueueRun? {
      if EnqueueOne(db, op.n, op.now).Enqueued? {
        EnqueueDecided(db, op.n, op.now, id);
      }
    } else if op.ClaimQueue? {
      ClaimAllDecided(db, op.cands, op.c);
    } else if op.EventEmitted? {
      DeliverDecided(db, op.event, op.payload, id);
    } else if op.DeadLetterRetried? {
      assert Journal(Apply(db, op), id) == Journal(db, id);
    } else if BystanderOp(op) {
      BystanderDecided(db, op, id);
    } else if HasStep(op) {
      JournalDecided(db, op, id, l);
    } else {
      RequeueDecided(db, op, id);
    }
  }

  // A wait that is decided, by a delivery or by its timeout, never changes again.
  lemma DecidedWaitsStay(ops: seq<Op>, op: Op, id: StepId)
    requires Legal(ops) && Disciplined(ops)
    requires HasStep(op) ==> ByTheBook(Exec(ops), Loaded(ops, op.id), op)
    requires id in Exec(ops).steps && id in Apply(Exec(ops), op).steps
    ensures Decided(Journal(Exec(ops), id), Journal(Apply(Exec(ops), op), id))
  {
    WaitsAlways(ops, id);
    OpDecided(Exec(ops), op, id, Loaded(ops, id));
  }

  // ---- what a dead-letter retry in between does --------------------------------------------------

  // An undecided wait that an event may still decide.
  predicate Open(e: Entry, now: int) {
    e.kind.WaitFor? && !e.done && !Overdue(e, now)
  }

  // A step that waits for an event that no entry of its journal waits for any more.
  predicate Stranded(db: Db, id: StepId, event: Str) {
    && Live(db, id.run) && IsSuspended(db, id) && db.steps[id].wait == EventWait(event)
    && forall i | 0 <= i < |Journal(db, id)| :: !Awaits(Journal(db, id)[i], event)
  }

  // It is not bound to an entry, no later delivery wakes it, and it resumes at its
  // deadline if it has one.
  lemma StrandedForGood(db: Db, id: StepId, event: Str, payload: Str, now: int)
    requires Stranded(db, id, event)
    ensures var s, j := db.steps[id], Journal(db, id);
      && !(j != [] && Awaits(j[|j| - 1], event) && j[|j| - 1].deadline == s.resumeAt)
      && id in DeliverEvent(db, event, payload).steps && DeliverEvent(db, event, payload).steps[id] == s
      && (ResumeDue(s, now) <==> 0 < s.resumeAt <= now)
  {
    assert id in db.journal ==> !Woken(db, id, event);
  }

  // An executor that loaded the open wait: the event comes before it gets there, and it
  // suspends on what it loaded.
  lemma LoadedOpenStrands(db: Db, l: seq<Entry>, id: StepId, i: nat, payload: Str, now: int)
    requires IsRunning(db, id) && Live(db, id.run) && l == Journal(db, id) && i < |l| && Open(l[i], now)
    ensures var db1, op := DeliverEvent(db, l[i].event, payload), AwaitResumed(id, EventWait(l[i].event), l[i].deadline, now);
      ByTheBook(db1, l, op) && Stranded(Apply(db1, op), id, l[i].event)
  {
    var event := l[i].event;
    var db1 := DeliverEvent(db, event, payload);
    assert Resumable(l[i], EventWait(event), l[i].deadline, now);
    assert Journal(db1, id) == DeliverJournal(l, event, payload);
    forall k | 0 <= k < |l| ensures !Awaits(Journal(db1, id)[k], event) {
      assert Journal(db1, id)[k] == DeliverEntry(l[k], event, payload);
    }
  }

  // The claimed steps are RUNNING, and the others as they were.
  lemma {:induction false} ClaimedOrSame(db: Db, cands: seq<Candidate>, c: Claimer, id: StepId)
    ensures ClaimAll(db, cands, c).journal == db.journal
    ensures var db1 := ClaimAll(db, cands, c);
      if id in ClaimLog(db, cands, c) then IsRunning(db1, id)
      else (id in db1.steps <==> id in db.steps) && (id in db.steps ==> db1.steps[id] == db.steps[id])
    decreases |cands|
  {
    if cands != [] {
      ClaimedOrSame(db, cands[..|cands| - 1], c, id);
    }
  }

  // Whatever came before: every claim that loads an open wait of a live run has a
  // continuation by the book that strands its step.
  lemma OpenClaimStrands(front: seq<Op>, claim: Op, id: StepId, i: nat, payload: Str)
    requires claim.ClaimQueue? && Legal(front + [claim]) && id in ClaimLog(Exec(front), claim.cands, claim.c)
    requires Live(Exec(front + [claim]), id.run) && i < |Journal(Exec(front), id)| && Open(Journal(Exec(front), id)[i], claim.c.now)
    ensures var e := Journal(Exec(front), id)[i];
      var emitted := front + [claim] + [EventEmitted(e.event, payload, claim.c.now)];
      var op := AwaitResumed(id, EventWait(e.event), e.deadline, claim.c.now);
      && Legal(emitted + [op]) && ByTheBook(Exec(emitted), Loaded(emitted, id), op)
      && Stranded(Exec(emitted + [op]), id, e.event)
  {
    var ops, e, now := front + [claim], Journal(Exec(front), id)[i], claim.c.now;
    assert ops[..|ops| - 1] == front && ops[|ops| - 1] == claim;
    ExtendedLoad(front, Exec(front), claim, id);
    ClaimedOrSame(Exec(front), claim.cands, claim.c, id);
    OpenStrands(ops, Exec(ops), Journal(Exec(front), id), id, i, payload, now);
  }

  lemma OpenStrands(ops: seq<Op>, db: Db, l: seq<Entry>, id: StepId, i: nat, payload: Str, now: int)
    requires Legal(ops) && Exec(ops) == db && Loaded(ops, id) == l == Journal(db, id) && now > 0 && now >= Clock(ops)
    requires IsRunning(db, id) && Live(db, id.run) && i < |l| && Open(l[i], now)
    ensures var emitted := ops + [EventEmitted(l[i].event, payload, now)];
      var op := AwaitResumed(id, EventWait(l[i].event), l[i].deadline, now);
      && Legal(emitted + [op]) && ByTheBook(Exec(emitted), Loaded(emitted, id), op)
      && Stranded(Exec(emitted + [op]), id, l[i].event)
  {
    var emit, op := EventEmitted(l[i].event, payload, now), AwaitResumed(id, EventWait(l[i].event), l[i].deadline, now);
    LoadedOpenStrands(db, l, id, i, payload, now);
    Extended(ops, db, emit);
    ExtendedLoad(ops, db, emit, id);
    Extended(ops + [emit], Apply(db, emit), op);
  }

  // A dead-lettered run is retried with an open wait in the journal of a step: the next
  // claim of the step can strand it.
  lemma DeadLetterLosesWakeup(db: Db, id: StepId, i: nat, payload: Str, now: int, c: Claimer)
    requires IsDeadLetter(db, id.run) && i < |Journal(db, id)| && Open(Journal(db, id)[i], c.now)
    requires Claimable(RetryDeadLetter(db, id.run, now), id, false, c.now)
    ensures var db2, e := ClaimOne(RetryDeadLetter(db, id.run, now), id, false, c), Journal(db, id)[i];
      var op := AwaitResumed(id, EventWait(e.event), e.deadline, c.now);
      && Journal(db2, id) == Journal(db, id)
      && ByTheBook(DeliverEvent(db2, e.event, payload), Journal(db2, id), op)
      && Stranded(Apply(DeliverEvent(db2, e.event, payload), op), id, e.event)
  {
    var db2 := ClaimOne(RetryDeadLetter(db, id.run, now), id, false, c);
    LoadedOpenStrands(db2, Journal(db, id), id, i, payload, c.now);
  }
}
