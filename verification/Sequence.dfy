// Strict sequences: the steps that share a sequence key start in the order their
// runs were enqueued, and one run of the sequence executes at a time.

module Sequence {
  import opened Names
  import opened Schema
  import opened Transitions
  import opened Enqueue
  import opened Machine
  import opened Frame
  import opened Progress

  predicate Begun(s: Step) {
    s.startedAt != 0
  }

  predicate Before(t: Step, s: Step) {
    t.seqKey != Empty && t.seqKey == s.seqKey && t.seqNo < s.seqNo
  }

  // Once s has begun, whatever comes before it is finished and started no later.
  predicate InOrder(t: Step, s: Step) {
    Before(t, s) && Begun(s) ==> !IsActive(t.status) && t.startedAt <= s.startedAt
  }

  // A run that takes no number leaves its steps at 0.
  predicate NumberedBy(s: Step, next: int, clock: int) {
    && 0 <= s.startedAt <= clock && (s.status.Running? || s.status.Suspended? ==> Begun(s))
    && (s.seqKey != Empty ==> 0 <= s.seqNo <= next)
  }

  predicate SamePlace(s: Step, t: Step) {
    s.seqKey != Empty && s.seqKey == t.seqKey && s.seqNo == t.seqNo
  }

  ghost predicate SeqInv(db: Db, clock: int) {
    && (forall id | id in db.steps :: NumberedBy(db.steps[id], db.next, clock))
    && (forall i, j | i in db.steps && j in db.steps :: SamePlace(db.steps[i], db.steps[j]) ==> i.run == j.run)
    && (forall i, j | i in db.steps && j in db.steps :: InOrder(db.steps[i], db.steps[j]))
  }

  // ---- preservation -------------------------------------------------------------------

  // A step that an operation brings back.
  predicate Reopens(db: Db, db1: Db, t: StepId) {
    t in db.steps && t in db1.steps && IsActive(db1.steps[t].status) && !IsActive(db.steps[t].status)
  }

  // A later step of its sequence has begun.
  ghost predicate Overtaken(db: Db, t: StepId) {
    t in db.steps && exists s :: s in db.steps && Before(db.steps[t], db.steps[s]) && Begun(db.steps[s])
  }

  // Rows keep the time of their first start, or start over.
  ghost predicate KeepsStarts(db: Db, db1: Db) {
    forall id | id in db1.steps && id in db.steps ::
      || db1.steps[id].startedAt == db.steps[id].startedAt
      || (db1.steps[id].startedAt == 0 && !db1.steps[id].status.Running? && !db1.steps[id].status.Suspended?)
  }

  lemma ReorderedRow(db: Db, db1: Db, clock: int, now: int, id: StepId)
    requires Quiet(db, db1) && KeepsStarts(db, db1) && SeqInv(db, clock) && clock <= now && id in db1.steps
    ensures NumberedBy(db1.steps[id], db1.next, now)
  {
    assert NumberedBy(db.steps[id], db.next, clock) && StepFrame(db.steps[id], db1.steps[id]);
  }

  lemma ReorderedPair(db: Db, db1: Db, clock: int, now: int, t: StepId, s: StepId)
    requires Quiet(db, db1) && KeepsStarts(db, db1) && SeqInv(db, clock) && clock <= now && t in db1.steps && s in db1.steps
    requires Reopens(db, db1, t) ==> !Overtaken(db1, t)
    ensures InOrder(db1.steps[t], db1.steps[s]) && (SamePlace(db1.steps[t], db1.steps[s]) ==> t.run == s.run)
  {
    assert InOrder(db.steps[t], db.steps[s]) && NumberedBy(db.steps[s], db.next, clock);
    assert StepFrame(db.steps[t], db1.steps[t]) && StepFrame(db.steps[s], db1.steps[s]);
  }

  // An operation that adds no step keeps the order exactly when it brings back no
  // step that has been overtaken.
  lemma Reordered(db: Db, db1: Db, clock: int, now: int)
    requires Quiet(db, db1) && KeepsStarts(db, db1) && SeqInv(db, clock) && clock <= now
    ensures SeqInv(db1, now) <==> forall t {:trigger Reopens(db, db1, t)} | Reopens(db, db1, t) :: !Overtaken(db1, t)
  {
    if forall t {:trigger Reopens(db, db1, t)} | Reopens(db, db1, t) :: !Overtaken(db1, t) {
      forall id | id in db1.steps ensures NumberedBy(db1.steps[id], db1.next, now) {
        ReorderedRow(db, db1, clock, now, id);
      }
      forall t, s | t in db1.steps && s in db1.steps
        ensures InOrder(db1.steps[t], db1.steps[s]) && (SamePlace(db1.steps[t], db1.steps[s]) ==> t.run == s.run)
      {
        assert Reopens(db, db1, t) ==> !Overtaken(db1, t);
        ReorderedPair(db, db1, clock, now, t, s);
      }
    } else {
      var t :| Reopens(db, db1, t) && Overtaken(db1, t);
      var s :| s in db1.steps && Before(db1.steps[t], db1.steps[s]) && Begun(db1.steps[s]);
      assert !InOrder(db1.steps[t], db1.steps[s]);
    }
  }

  lemma StaysInOrder(db: Db, db1: Db, clock: int, now: int)
    requires Quiet(db, db1) && Stays(db, db1) && SeqInv(db, clock) && clock <= now
    ensures SeqInv(db1, now)
  {
    forall id | id in db1.steps && id in db.steps ensures db1.steps[id].startedAt == db.steps[id].startedAt && !Reopens(db, db1, id) {
      assert StepStays(db.steps[id], db1.steps[id]);
    }
    Reordered(db, db1, clock, now);
  }

  // ---- what may bring a step back -----------------------------------------------------------

  lemma InterruptReopensNone(db: Db, now: int)
    ensures var db1 := InterruptAll(db, now); KeepsStarts(db, db1) && forall t :: !Reopens(db, db1, t)
  {
  }

  lemma WorkerReopensNone(db: Db, worker: Str, now: int)
    ensures var db1 := InterruptWorker(db, worker, now); KeepsStarts(db, db1) && forall t :: !Reopens(db, db1, t)
  {
  }

  lemma SweepReopensNone(db: Db, op: Op)
    requires Sweeps(op)
    ensures KeepsStarts(db, Apply(db, op)) && forall t :: !Reopens(db, Apply(db, op), t)
  {
    if op.Interrupted? {
      assert Apply(db, op) == InterruptAll(db, op.now);
      InterruptReopensNone(db, op.now);
    } else {
      assert Apply(db, op) == InterruptWorker(db, op.worker, op.now);
      WorkerReopensNone(db, op.worker, op.now);
    }
  }

  // Nothing of another run that comes after the retried one has begun.
  predicate RetriedInTurn(db: Db, run: Str) {
    forall t, s | t in db.steps && s in db.steps && t.run == run && s.run != run :: !(Before(db.steps[t], db.steps[s]) && Begun(db.steps[s]))
  }

  // What a retry makes of the rows.
  ghost predicate RetriedRows(db: Db, db1: Db, run: Str) {
    && db1.steps.Keys == db.steps.Keys
    && forall id {:trigger db1.steps[id]} | id in db.steps ::
         && SameColumns(db.steps[id], db1.steps[id])
         && (if id.run == run then IsActive(db1.steps[id].status) && !Begun(db1.steps[id]) else db1.steps[id] == db.steps[id])
  }

  lemma RetryReorders(db: Db, db1: Db, run: Str, clock: int, now: int)
    requires Quiet(db, db1) && KeepsStarts(db, db1) && RetriedRows(db, db1, run) && SeqInv(db, clock) && clock <= now
    ensures SeqInv(db1, now) <==> RetriedInTurn(db, run)
  {
    Reordered(db, db1, clock, now);
    if RetriedInTurn(db, run) {
      forall t | Reopens(db, db1, t) ensures !Overtaken(db1, t) {
        forall s | s in db1.steps ensures !(Before(db1.steps[t], db1.steps[s]) && Begun(db1.steps[s])) {
          assert t.run == run && SameColumns(db.steps[s], db1.steps[s]);
        }
      }
    } else {
      var t, s :| t in db.steps && s in db.steps && t.run == run && s.run != run && Before(db.steps[t], db.steps[s]) && Begun(db.steps[s]);
      assert InOrder(db.steps[t], db.steps[s]);
      assert SameColumns(db.steps[t], db1.steps[t]) && db1.steps[s] == db.steps[s];
      assert Reopens(db, db1, t) && Before(db1.steps[t], db1.steps[s]);
      assert Overtaken(db1, t);
    }
  }

  // A dead-letter retry keeps the order exactly when the run is still next in each of
  // its sequences.
  lemma RetryInOrder(db: Db, run: Str, clock: int, now: int)
    requires IsDeadLetter(db, run) && SeqInv(db, clock) && clock <= now
    ensures SeqInv(RetryDeadLetter(db, run, now), now) <==> RetriedInTurn(db, run)
  {
    DeadLetterQuiet(db, run, now);
    RetryReorders(db, RetryDeadLetter(db, run, now), run, clock, now);
  }

  predicate Lasting(db: Db, id: StepId) {
    id in db.steps && id.run in db.runs && !db.runs[id.run].ephemeral
  }

  // Nothing that comes after an interrupted step has begun.
  ghost predicate BootsInTurn(db: Db, keep: bool) {
    keep ==> forall t, s | Lasting(db, t) && Lasting(db, s) && db.steps[t].status.Interrupted? ::
      !(Before(db.steps[t], db.steps[s]) && Begun(db.steps[s]))
  }

  lemma RecoveredKeeps(s: Step, s1: Step, keep: bool, reason: Str, now: int)
    requires s1 == s || (s.status.Running? && s1 == s.(status := Status.Interrupted))
    ensures var s2 := RecoveredStep(s1, keep, reason, now);
      && SameColumns(s, s2) && s2.startedAt == s.startedAt && !s2.status.Running?
      && (IsActive(s2.status) && !IsActive(s.status) <==> keep && s.status.Interrupted?)
  {
  }

  lemma RecoveredRow(db: Db, mid: Db, keep: bool, reason: Str, now: int, id: StepId)
    requires Rows(db) && mid.steps.Keys <= db.steps.Keys && mid.runs.Keys <= db.runs.Keys
    requires forall r | r in mid.runs :: mid.runs[r].ephemeral == db.runs[r].ephemeral
    requires forall r | r in db.runs && r !in mid.runs :: db.runs[r].ephemeral
    requires id in db.steps && id.run in mid.runs ==> id in mid.steps && SweptFrom(db.steps[id], mid.steps[id])
    requires id in mid.steps ==> id.run in mid.runs
    ensures var db1 := Recover(mid, keep, reason, now);
      && (id in db1.steps <==> Lasting(db, id))
      && (id in db1.steps ==>
            && SameColumns(db.steps[id], db1.steps[id]) && db1.steps[id].startedAt == db.steps[id].startedAt
            && !db1.steps[id].status.Running?
            && (Reopens(db, db1, id) <==> keep && db.steps[id].status.Interrupted?))
  {
    var db1 := Recover(mid, keep, reason, now);
    if id in db1.steps {
      assert db1.steps[id] == RecoveredStep(mid.steps[id], keep, reason, now);
      RecoveredKeeps(db.steps[id], mid.steps[id], keep, reason, now);
    }
  }

  lemma SweptRun(db: Db, now: int, id: StepId)
    requires Rows(db)
    ensures var mid := InterruptAll(db, now);
      && mid.steps.Keys <= db.steps.Keys && mid.runs.Keys <= db.runs.Keys
      && (forall r | r in mid.runs :: mid.runs[r].ephemeral == db.runs[r].ephemeral)
      && (forall r | r in db.runs && r !in mid.runs :: db.runs[r].ephemeral)
      && (id in db.steps && id.run in mid.runs ==> id in mid.steps && SweptFrom(db.steps[id], mid.steps[id]))
      && (id in mid.steps ==> id.run in mid.runs)
  {
  }

  lemma BootedRow(db: Db, graceful: bool, keep: bool, reason: Str, now: int, id: StepId)
    requires Rows(db)
    ensures var db1 := Reboot(db, graceful, keep, reason, now);
      && (id in db1.steps <==> Lasting(db, id))
      && (id in db1.steps ==>
            && SameColumns(db.steps[id], db1.steps[id]) && db1.steps[id].startedAt == db.steps[id].startedAt
            && !db1.steps[id].status.Running?
            && (Reopens(db, db1, id) <==> keep && db.steps[id].status.Interrupted?))
  {
    if graceful {
      SweptRun(db, now, id);
    }
    RecoveredRow(db, if graceful then InterruptAll(db, now) else db, keep, reason, now, id);
  }

  // A boot keeps it exactly when what it brings back is still next.
  lemma BootInOrder(db: Db, graceful: bool, keep: bool, reason: Str, clock: int, now: int)
    requires Rows(db) && SeqInv(db, clock) && clock <= now
    ensures SeqInv(Reboot(db, graceful, keep, reason, now), now) <==> BootsInTurn(db, keep)
  {
    var db1 := Reboot(db, graceful, keep, reason, now);
    RebootQuiet(db, graceful, keep, reason, now);
    forall id {
      BootedRow(db, graceful, keep, reason, now, id);
    }
    BootReorders(db, db1, keep, clock, now);
  }

  ghost predicate BootRows(db: Db, db1: Db, keep: bool) {
    forall id {:trigger Lasting(db, id)} ::
      && (id in db1.steps <==> Lasting(db, id))
      && (id in db1.steps ==>
            && SameColumns(db.steps[id], db1.steps[id]) && db1.steps[id].startedAt == db.steps[id].startedAt
            && !db1.steps[id].status.Running?
            && (Reopens(db, db1, id) <==> keep && db.steps[id].status.Interrupted?))
  }

  lemma BootReorders(db: Db, db1: Db, keep: bool, clock: int, now: int)
    requires Quiet(db, db1) && BootRows(db, db1, keep) && SeqInv(db, clock) && clock <= now
    ensures SeqInv(db1, now) <==> BootsInTurn(db, keep)
  {
    forall id | id in db1.steps ensures Lasting(db, id) && db1.steps[id].startedAt == db.steps[id].startedAt {
      assert Lasting(db, id) || !Lasting(db, id);
    }
    Reordered(db, db1, clock, now);
    if BootsInTurn(db, keep) {
      forall t | Reopens(db, db1, t) ensures !Overtaken(db1, t) {
        assert Lasting(db, t) && keep && db.steps[t].status.Interrupted?;
        forall s | s in db1.steps ensures !(Before(db1.steps[t], db1.steps[s]) && Begun(db1.steps[s])) {
          assert Lasting(db, s);
        }
      }
    } else {
      var t, s :| Lasting(db, t) && Lasting(db, s) && db.steps[t].status.Interrupted? && Before(db.steps[t], db.steps[s]) && Begun(db.steps[s]);
      assert Reopens(db, db1, t) && s in db1.steps;
      assert Before(db1.steps[t], db1.steps[s]) && Begun(db1.steps[s]);
      assert Overtaken(db1, t);
    }
  }

  lemma ClaimedFields(s: Step, resumed: bool, c: Claimer)
    ensures var s1 := ClaimedStep(s, resumed, c);
      && s1.seqKey == s.seqKey && s1.seqNo == s.seqNo && s1.status.Running?
      && (s1.startedAt == s.startedAt || (s.startedAt == 0 && s1.startedAt == c.now))
  {
  }

  lemma GateOrders(db: Db, id: StepId, j: StepId)
    requires id in db.steps && j in db.steps && SequenceGate(db.steps, id)
    ensures Before(db.steps[j], db.steps[id]) ==> !IsActive(db.steps[j].status)
  {
  }

  // The sequence gate lets a step begin only when those before it are finished.
  lemma ClaimedAfter(db: Db, id: StepId, resumed: bool, c: Claimer, j: StepId, clock: int)
    requires SeqInv(db, clock) && clock <= c.now && c.now > 0 && Claimable(db, id, resumed, c.now) && j in db.steps
    ensures InOrder(db.steps[j], ClaimedStep(db.steps[id], resumed, c))
    ensures InOrder(ClaimedStep(db.steps[id], resumed, c), db.steps[j])
    ensures SamePlace(db.steps[j], ClaimedStep(db.steps[id], resumed, c)) ==> j.run == id.run
  {
    ClaimedFields(db.steps[id], resumed, c);
    GateOrders(db, id, j);
    assert InOrder(db.steps[j], db.steps[id]) && InOrder(db.steps[id], db.steps[j]);
    assert NumberedBy(db.steps[j], db.next, clock);
  }

  lemma UpdateInOrder(db: Db, id: StepId, s: Step, runs: map<Str, Run>, clock: int, now: int)
    requires SeqInv(db, clock) && clock <= now && id in db.steps && NumberedBy(s, db.next, now)
    requires forall j | j in db.steps ::
      InOrder(db.steps[j], s) && InOrder(s, db.steps[j]) && (SamePlace(db.steps[j], s) ==> j.run == id.run)
    ensures SeqInv(db.(steps := db.steps[id := s], runs := runs), now)
  {
    forall k | k in db.steps ensures NumberedBy(db.steps[k], db.next, now) {
      assert NumberedBy(db.steps[k], db.next, clock);
    }
  }

  lemma ClaimInOrder(db: Db, id: StepId, resumed: bool, c: Claimer, clock: int)
    requires SeqInv(db, clock) && clock <= c.now && c.now > 0
    ensures SeqInv(ClaimOne(db, id, resumed, c), c.now)
  {
    if Claimable(db, id, resumed, c.now) {
      forall j | j in db.steps {
        ClaimedAfter(db, id, resumed, c, j, clock);
      }
      ClaimedFields(db.steps[id], resumed, c);
      assert NumberedBy(db.steps[id], db.next, clock);
      UpdateInOrder(db, id, ClaimedStep(db.steps[id], resumed, c), ClaimOne(db, id, resumed, c).runs, clock, c.now);
    } else {
      Renumbered(db, db, clock, c.now);
    }
  }

  lemma {:induction false} ClaimAllInOrder(db: Db, cands: seq<Candidate>, c: Claimer, clock: int)
    requires SeqInv(db, clock) && clock <= c.now && c.now > 0
    ensures SeqInv(ClaimAll(db, cands, c), c.now)
    decreases |cands|
  {
    if cands == [] {
      StaysInOrder(db, db, clock, c.now);
    } else {
      var last := cands[|cands| - 1];
      ClaimAllInOrder(db, cands[..|cands| - 1], c, clock);
      ClaimInOrder(ClaimAll(db, cands[..|cands| - 1], c), last.id, last.resumed, c, c.now);
    }
  }

  // New steps come after everything numbered up to `next`.
  predicate NewStep(s: Step, next: int) {
    !Begun(s) && !s.status.Running? && !s.status.Suspended? && (s.seqKey != Empty ==> s.seqNo == next + 1)
  }

  lemma InsertInOrder(db: Db, n: NewRun, next: int, clock: int)
    requires SeqInv(db.(next := next), clock) && clock >= 0 && 0 <= next <= db.next
    requires forall id | id in db.steps :: id.run != n.id
    requires forall name | name in n.steps :: NewStep(n.steps[name], next) && (n.steps[name].seqKey != Empty ==> next < db.next)
    ensures SeqInv(Inserted(db, n), clock)
  {
    var db1 := Inserted(db, n);
    forall id | id in db1.steps
      ensures NumberedBy(db1.steps[id], db1.next, clock)
      ensures id.run == n.id ==> NewStep(db1.steps[id], next)
      ensures id.run != n.id ==> id in db.steps && db1.steps[id] == db.steps[id] && NumberedBy(db1.steps[id], next, clock)
    {
      if id.run != n.id {
        assert NumberedBy(db.steps[id], next, clock);
      }
    }
    forall i, j | i in db1.steps && j in db1.steps
      ensures InOrder(db1.steps[i], db1.steps[j]) && (SamePlace(db1.steps[i], db1.steps[j]) ==> i.run == j.run)
    {
      if i.run != n.id && j.run != n.id {
        assert InOrder(db.steps[i], db.steps[j]);
      }
    }
  }

  lemma StampedSteps(n: NewRun, next: int)
    requires WellFormed(n) && Sequenced(n)
    ensures var steps := Stamped(n, next + 1).steps;
      forall name | name in steps :: NewStep(steps[name], next) && (steps[name].seqKey != Empty ==> Sequenced(n))
  {
    forall name | name in n.steps ensures !Begun(n.steps[name]) && !n.steps[name].status.Running? && !n.steps[name].status.Suspended? {
      assert WellFormedStep(n.steps[name]);
    }
  }

  lemma Renumbered(db: Db, db1: Db, clock: int, now: int)
    requires SeqInv(db, clock) && clock <= now && db1.steps == db.steps && db1.next >= db.next
    ensures SeqInv(db1, now)
  {
    forall id | id in db1.steps ensures NumberedBy(db1.steps[id], db1.next, now) {
      assert NumberedBy(db.steps[id], db.next, clock);
    }
  }

  // Cancelling the run to be replaced, seen from before the number was taken.
  lemma PreparedInOrder(db: Db, n: NewRun, a: Db, clock: int, now: int)
    requires SeqInv(db, clock) && clock <= now && Prepares(Numbered(db, n), a, now)
    ensures SeqInv(a.(next := db.next), now) && a.next == Numbered(db, n).next
  {
    PrepareSteady(Numbered(db, n), a, now);
    StaysInOrder(db, a.(next := db.next), clock, now);
  }

  lemma StrategyInOrder(db: Db, n: NewRun, now: int)
    requires SeqInv(db, now)
    ensures SeqInv(CancelAll(db, StrategyVictims(db, n), now), now)
    ensures CancelAll(db, StrategyVictims(db, n), now).next == db.next
  {
    StrategySteady(db, n, now);
    StaysInOrder(db, CancelAll(db, StrategyVictims(db, n), now), now, now);
  }

  lemma PreparedRows(db0: Db, a: Db, now: int, run: Str)
    requires Prepares(db0, a, now) && forall id | id in db0.steps :: id.run != run
    ensures forall id | id in a.steps :: id.run != run
  {
    PrepareSteady(db0, a, now);
  }

  // What is inserted comes after everything numbered up to `next`.
  ghost predicate ComesLast(n: NewRun, next: int, taken: int) {
    && 0 <= next <= taken
    && forall name | name in n.steps :: NewStep(n.steps[name], next) && (n.steps[name].seqKey != Empty ==> next < taken)
  }

  lemma EnqueuedInOrder(db0: Db, m: NewRun, next: int, now: int, out: Outcome, a: Db, inserted: bool)
    requires Enqueues(db0, m, now, out, a, inserted) && inserted
    requires SeqInv(a.(next := next), now) && now >= 0 && ComesLast(m, next, a.next)
    requires forall id | id in a.steps :: id.run != m.id
    ensures SeqInv(out.db, now) && out.db.next == a.next
  {
    InsertInOrder(a, m, next, now);
    StrategyInOrder(Inserted(a, m), m, now);
  }

  lemma StampedComesLast(db: Db, n: NewRun)
    requires WellFormed(n) && Sequenced(n) && db.next >= 0
    ensures ComesLast(Stamped(n, db.next + 1), db.next, Numbered(db, n).next)
    ensures Stamped(n, db.next + 1).id == n.id
  {
    StampedSteps(n, db.next);
  }

  lemma PartsInOrder(db: Db, n: NewRun, m: NewRun, now: int, clock: int, out: Outcome, a: Db, inserted: bool)
    requires SeqInv(db, clock) && 0 <= clock <= now && db.next >= 0
    requires Enqueues(Numbered(db, n), m, now, out, a, inserted) && ComesLast(m, db.next, Numbered(db, n).next)
    requires forall id | id in db.steps :: id.run != m.id
    ensures SeqInv(out.db, now) && out.db.next >= 0
  {
    PreparedInOrder(db, n, a, clock, now);
    if inserted {
      PreparedRows(Numbered(db, n), a, now, m.id);
      EnqueuedInOrder(Numbered(db, n), m, db.next, now, out, a, inserted);
    } else {
      Renumbered(db, out.db, clock, now);
    }
  }

  lemma EnqueueInOrder(db: Db, n: NewRun, now: int, clock: int)
    requires SeqInv(db, clock) && 0 <= clock <= now && db.next >= 0 && WellFormed(n) && Sequenced(n)
    requires n.id !in db.runs && (forall id | id in db.steps :: id.run in db.runs) && EnqueueOne(db, n, now).Enqueued?
    ensures SeqInv(EnqueueOne(db, n, now).db, now) && EnqueueOne(db, n, now).db.next >= 0
  {
    var a, inserted := EnqueueParts(db, n, now);
    StampedComesLast(db, n);
    PartsInOrder(db, n, Stamped(n, db.next + 1), now, clock, EnqueueOne(db, n, now), a, inserted);
  }

  // ---- runs that take no number ------------------------------------------------------------

  // Nothing of the step's sequence has begun, and nothing else in it lacks a number.
  predicate FitsUnnumbered(db: Db, key: Str) {
    forall id | id in db.steps && db.steps[id].seqKey == key != Empty :: db.steps[id].seqNo > 0 && !Begun(db.steps[id])
  }

  predicate UnnumberedInTurn(db: Db, n: NewRun) {
    forall name | name in n.steps :: FitsUnnumbered(db, n.steps[name].seqKey)
  }

  lemma UnnumberedFits(db: Db, n: NewRun, clock: int, i: StepId, j: StepId)
    requires SeqInv(db, clock) && UnnumberedInTurn(db, n) && (forall id | id in db.steps :: id.run != n.id)
    requires forall name | name in n.steps :: NewUnnumbered(n.steps[name])
    requires i in Inserted(db, n).steps && j in Inserted(db, n).steps
    ensures var steps := Inserted(db, n).steps;
      InOrder(steps[i], steps[j]) && (SamePlace(steps[i], steps[j]) ==> i.run == j.run)
  {
    var steps := Inserted(db, n).steps;
    if i.run == n.id {
      assert FitsUnnumbered(db, steps[i].seqKey);
    }
    if j.run == n.id {
      assert FitsUnnumbered(db, steps[j].seqKey);
    }
    if i.run != n.id {
      assert NumberedBy(db.steps[i], db.next, clock);
      if j.run != n.id {
        assert InOrder(db.steps[i], db.steps[j]);
      }
    }
  }

  lemma UnnumberedBreaks(db: Db, n: NewRun, clock: int, name: Str, id: StepId)
    requires (forall j | j in db.steps :: j.run != n.id) && name in n.steps && NewUnnumbered(n.steps[name])
    requires id in db.steps && db.steps[id].seqKey == n.steps[name].seqKey != Empty && NumberedBy(db.steps[id], db.next, clock)
    requires db.steps[id].seqNo <= 0 || Begun(db.steps[id])
    ensures !SeqInv(Inserted(db, n), clock)
  {
    var steps, i := Inserted(db, n).steps, StepId(n.id, name);
    assert i in steps && id in steps && steps[i] == n.steps[name] && steps[id] == db.steps[id];
    if db.steps[id].seqNo <= 0 {
      assert SamePlace(steps[i], steps[id]) && i.run != id.run;
    } else {
      assert Before(steps[i], steps[id]) && !InOrder(steps[i], steps[id]);
    }
  }

  lemma UnnumberedRows(db: Db, n: NewRun, clock: int, id: StepId)
    requires SeqInv(db, clock) && clock >= 0 && db.next >= 0 && id in Inserted(db, n).steps
    requires forall name | name in n.steps :: NewUnnumbered(n.steps[name])
    ensures NumberedBy(Inserted(db, n).steps[id], Inserted(db, n).next, clock)
  {
    if !(id.run == n.id && id.name in n.steps) {
      assert NumberedBy(db.steps[id], db.next, clock);
    }
  }

  predicate NewUnnumbered(s: Step) {
    !Begun(s) && s.seqNo == 0 && IsActive(s.status) && !s.status.Running? && !s.status.Suspended?
  }

  lemma WellFormedUnnumbered(n: NewRun)
    requires WellFormed(n)
    ensures forall name | name in n.steps :: NewUnnumbered(n.steps[name])
  {
    forall name | name in n.steps ensures NewUnnumbered(n.steps[name]) {
      assert WellFormedStep(n.steps[name]);
    }
  }

  // Such a run keeps the order exactly when it comes before everything its sequences
  // have begun, and alone.
  lemma InsertUnnumbered(db: Db, n: NewRun, clock: int)
    requires SeqInv(db, clock) && clock >= 0 && db.next >= 0 && forall id | id in db.steps :: id.run != n.id
    requires forall name | name in n.steps :: NewUnnumbered(n.steps[name])
    ensures SeqInv(Inserted(db, n), clock) <==> UnnumberedInTurn(db, n)
  {
    if UnnumberedInTurn(db, n) {
      FittingInsert(db, n, clock);
    } else {
      var name :| name in n.steps && !FitsUnnumbered(db, n.steps[name].seqKey);
      var id :| id in db.steps && db.steps[id].seqKey == n.steps[name].seqKey != Empty && !(db.steps[id].seqNo > 0 && !Begun(db.steps[id]));
      UnnumberedBreaks(db, n, clock, name, id);
    }
  }

  lemma FittingInsert(db: Db, n: NewRun, clock: int)
    requires SeqInv(db, clock) && clock >= 0 && db.next >= 0 && UnnumberedInTurn(db, n) && forall id | id in db.steps :: id.run != n.id
    requires forall name | name in n.steps :: NewUnnumbered(n.steps[name])
    ensures SeqInv(Inserted(db, n), clock)
  {
    var db1 := Inserted(db, n);
    forall id | id in db1.steps ensures NumberedBy(db1.steps[id], db1.next, clock) {
      UnnumberedRows(db, n, clock, id);
    }
    forall i, j | i in db1.steps && j in db1.steps
      ensures InOrder(db1.steps[i], db1.steps[j]) && (SamePlace(db1.steps[i], db1.steps[j]) ==> i.run == j.run)
    {
      UnnumberedFits(db, n, clock, i, j);
    }
  }

  lemma PreparedFits(db: Db, a: Db, n: NewRun, now: int)
    requires Prepares(db, a, now)
    ensures UnnumberedInTurn(a, n) <==> UnnumberedInTurn(db, n)
  {
    PrepareSteady(db, a, now);
    if a != db {
      var r :| Live(db, r) && a == CancelRow(db, r, true, now);
      PreparedBegun(db, a, r, now);
    }
  }

  lemma PreparedBegun(db: Db, a: Db, r: Str, now: int)
    requires Live(db, r) && a == CancelRow(db, r, true, now)
    ensures a.steps.Keys == db.steps.Keys
    ensures forall id | id in db.steps :: a.steps[id].seqKey == db.steps[id].seqKey && a.steps[id].seqNo == db.steps[id].seqNo
    ensures forall id | id in db.steps :: a.steps[id].startedAt == db.steps[id].startedAt
  {
  }

  // ---- over whole runs of the store ------------------------------------------------------

  // What is enqueued without a number, retried or brought back by a boot is next in
  // its sequences.
  ghost predicate InTurn(db: Db, op: Op) {
    if op.EnqueueRun? then Sequenced(op.n) || UnnumberedInTurn(db, op.n)
    else if op.DeadLetterRetried? then IsDeadLetter(db, op.run) ==> RetriedInTurn(db, op.run)
    else if op.Recovered? || op.Rebooted? then BootsInTurn(db, op.keep)
    else true
  }

  ghost predicate AllInTurn(ops: seq<Op>) {
    ops == [] ||
    (var front, op := ops[..|ops| - 1], ops[|ops| - 1];
     AllInTurn(front) && InTurn(Exec(front), op))
  }

  lemma EnqueueUnnumbered(db: Db, n: NewRun, now: int, clock: int)
    requires SeqInv(db, clock) && 0 <= clock <= now && db.next >= 0 && WellFormed(n) && !Sequenced(n)
    requires n.id !in db.runs && Rows(db) && EnqueueOne(db, n, now).Enqueued?
    ensures EnqueueOne(db, n, now).id == n.id ==> (SeqInv(EnqueueOne(db, n, now).db, now) <==> UnnumberedInTurn(db, n))
    ensures EnqueueOne(db, n, now).id != n.id ==> SeqInv(EnqueueOne(db, n, now).db, now)
    ensures EnqueueOne(db, n, now).db.next == db.next
  {
    var a, inserted := EnqueueParts(db, n, now);
    PrepareSteady(db, a, now);
    StaysInOrder(db, a, clock, now);
    if inserted {
      PreparedRows(db, a, now, n.id);
      PreparedFits(db, a, n, now);
      WellFormedUnnumbered(n);
      InsertUnnumbered(a, n, now);
      assert EnqueueOne(db, n, now).db == Inserted(a, n);
    } else {
      Renumbered(db, db, clock, now);
    }
  }

  lemma EnqueueKeepsOrder(db: Db, n: NewRun, now: int, clock: int)
    requires SeqInv(db, clock) && 0 <= clock <= now && db.next >= 0 && WellFormed(n) && n.id !in db.runs && Rows(db)
    requires Sequenced(n) || UnnumberedInTurn(db, n)
    ensures SeqInv(Apply(db, EnqueueRun(n, now)), now) && Apply(db, EnqueueRun(n, now)).next >= 0
  {
    if EnqueueOne(db, n, now).Enqueued? {
      if Sequenced(n) {
        EnqueueInOrder(db, n, now, clock);
      } else {
        EnqueueUnnumbered(db, n, now, clock);
      }
    } else {
      Renumbered(db, db, clock, now);
    }
  }

  lemma RevivalInOrder(db: Db, op: Op, clock: int)
    requires Revives(op) && SeqInv(db, clock) && clock <= op.now && Rows(db)
    ensures (op.DeadLetterRetried? ==> IsDeadLetter(db, op.run)) ==> (SeqInv(Apply(db, op), op.now) <==> InTurn(db, op))
    ensures InTurn(db, op) ==> SeqInv(Apply(db, op), op.now)
    ensures Apply(db, op).next == db.next
  {
    if op.DeadLetterRetried? {
      if IsDeadLetter(db, op.run) {
        RetryInOrder(db, op.run, clock, op.now);
      } else {
        Renumbered(db, db, clock, op.now);
      }
    } else {
      BootInOrder(db, op.Rebooted? && op.graceful, op.keep, op.reason, clock, op.now);
    }
  }

  lemma OpInOrder(db: Db, op: Op, clock: int)
    requires SeqInv(db, clock) && clock >= 0 && db.next >= 0 && Rows(db)
    requires InTurn(db, op) && Enabled(db, op) && op.At() >= clock && op.At() > 0
    ensures SeqInv(Apply(db, op), op.At()) && Apply(db, op).next >= 0
  {
    if op.ClaimQueue? {
      ClaimAllInOrder(db, op.cands, op.c, clock);
      ClaimAllNext(db, op.cands, op.c);
    } else if op.EnqueueRun? {
      EnqueueKeepsOrder(db, op.n, op.now, clock);
    } else if Revives(op) {
      RevivalInOrder(db, op, clock);
    } else if Sweeps(op) {
      OpQuiet(db, op);
      SweepReopensNone(db, op);
      Reordered(db, Apply(db, op), clock, op.now);
    } else {
      OpSteady(db, op);
      StaysInOrder(db, Apply(db, op), clock, op.At());
    }
  }

  lemma {:induction false} ClaimAllNext(db: Db, cands: seq<Candidate>, c: Claimer)
    ensures ClaimAll(db, cands, c).next == db.next
    decreases |cands|
  {
    if cands != [] {
      ClaimAllNext(db, cands[..|cands| - 1], c);
    }
  }

  lemma {:induction false} OrderAlways(ops: seq<Op>)
    requires Legal(ops) && AllInTurn(ops)
    ensures SeqInv(Exec(ops), Clock(ops)) && Exec(ops).next >= 0
  {
    if ops != [] {
      var front := ops[..|ops| - 1];
      OrderAlways(front);
      RowsAlways(front);
      ClockNonNegative(front);
      OpInOrder(Exec(front), ops[|ops| - 1], Clock(front));
    }
  }

  // While a step of a sequence executes, every step before it is finished.
  lemma EarlierStepsAreFinished(ops: seq<Op>, id: StepId, j: StepId)
    requires Legal(ops) && AllInTurn(ops)
    requires id in Exec(ops).steps && j in Exec(ops).steps
    requires Exec(ops).steps[id].status.Running? && Before(Exec(ops).steps[j], Exec(ops).steps[id])
    ensures !IsActive(Exec(ops).steps[j].status)
  {
    OrderAlways(ops);
    assert InOrder(Exec(ops).steps[j], Exec(ops).steps[id]);
  }

  // The executing steps of a sequence belong to one run.
  lemma OneRunAtATime(ops: seq<Op>, i: StepId, j: StepId)
    requires Legal(ops) && AllInTurn(ops)
    requires i in Exec(ops).steps && j in Exec(ops).steps
    requires Exec(ops).steps[i].status.Running? && Exec(ops).steps[j].status.Running?
    requires Exec(ops).steps[i].seqKey == Exec(ops).steps[j].seqKey != Empty
    ensures i.run == j.run
  {
    OrderAlways(ops);
    var s, t := Exec(ops).steps[i], Exec(ops).steps[j];
    assert InOrder(s, t) && InOrder(t, s) && (SamePlace(s, t) ==> i.run == j.run);
  }

  // First starts follow the order of the sequence.
  lemma StartsFollowOrder(ops: seq<Op>, i: StepId, j: StepId)
    requires Legal(ops) && AllInTurn(ops)
    requires i in Exec(ops).steps && j in Exec(ops).steps
    requires Before(Exec(ops).steps[i], Exec(ops).steps[j]) && Exec(ops).steps[j].startedAt != 0
    ensures Exec(ops).steps[i].startedAt <= Exec(ops).steps[j].startedAt
  {
    OrderAlways(ops);
    assert InOrder(Exec(ops).steps[i], Exec(ops).steps[j]);
  }
}
