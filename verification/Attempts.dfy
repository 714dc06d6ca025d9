// Retry termination: what the attempts column counts, and how often a step can
// be sent back for another attempt.

module Attempts {
  import opened Names
  import opened Schema
  import opened Transitions
  import opened Enqueue
  import opened Machine
  import opened Frame
  import opened Progress
  import opened Bystanders

  // What happened to a step since its enqueue or its last dead-letter reset.
  datatype Tally = Tally(claims: nat, refunds: nat, retries: nat)

  // The claims of a batch that start a step afresh rather than resume it.
  ghost function FreshClaims(db: Db, cands: seq<Candidate>, c: Claimer, id: StepId): nat
    decreases |cands|
  {
    if cands == [] then 0
    else
      var front, last := cands[..|cands| - 1], cands[|cands| - 1];
      FreshClaims(db, front, c, id)
      + if last.id == id && !last.resumed && Claimable(ClaimAll(db, front, c), id, false, c.now) then 1 else 0
  }

  ghost function Tallied(db: Db, op: Op, id: StepId, t: Tally): Tally {
    match op
    case EnqueueRun(_, _) => if id in db.steps then t else Tally(0, 0, 0)
    case DeadLetterRetried(run, _) => if run == id.run && IsDeadLetter(db, run) then Tally(0, 0, 0) else t
    case ClaimQueue(_, cands, c, _) => t.(claims := t.claims + FreshClaims(db, cands, c, id))
    case StepRetried(j, _, _, _) => if j == id && IsRunning(db, id) then t.(retries := t.retries + 1) else t
    case StepParked(j, _, _, _) => if j == id && IsRunning(db, id) then t.(refunds := t.refunds + 1) else t
    case StepRequeued(j, _) => if j == id && IsRunning(db, id) then t.(refunds := t.refunds + 1) else t
    case _ => t
  }

  ghost function TallyOf(ops: seq<Op>, id: StepId): Tally {
    if ops == [] then Tally(0, 0, 0)
    else Tallied(Exec(ops[..|ops| - 1]), ops[|ops| - 1], id, TallyOf(ops[..|ops| - 1], id))
  }

  predicate Charged(s: Step, t: Tally) {
    && s.attempts == t.claims - t.refunds
    && t.retries + (if InHand(s) then 1 else 0) <= s.attempts
    && t.retries <= s.maxAttempts - 1
  }

  ghost predicate Consistent(db: Db, id: StepId, t: Tally) {
    id in db.steps ==> Charged(db.steps[id], t)
  }

  // ---- the operations that charge ------------------------------------------------------

  lemma {:induction false} ClaimsCharge(db: Db, cands: seq<Candidate>, c: Claimer, id: StepId, t: Tally)
    requires Consistent(db, id, t)
    ensures Consistent(ClaimAll(db, cands, c), id, t.(claims := t.claims + FreshClaims(db, cands, c, id)))
    decreases |cands|
  {
    if cands != [] {
      ClaimsCharge(db, cands[..|cands| - 1], c, id, t);
    }
  }

  lemma RefundsCharge(db: Db, op: Op, id: StepId, t: Tally)
    requires (op.StepParked? || op.StepRequeued?) && Consistent(db, id, t)
    ensures Consistent(Apply(db, op), id, Tallied(db, op, id, t))
  {
  }

  // Suspending, waking and the journal charge nothing.
  lemma AwaitCharges(db: Db, op: Op, id: StepId, t: Tally)
    requires (op.AwaitRecorded? || op.AwaitResumed? || JournalOp(op)) && Consistent(db, id, t)
    ensures Consistent(Apply(db, op), id, t)
  {
  }

  lemma WakeCharges(db: Db, event: Str, payload: Str, id: StepId, t: Tally)
    requires Consistent(db, id, t)
    ensures Consistent(DeliverEvent(db, event, payload), id, t)
  {
  }

  // Enabled: an attempt is retried only while attempts remain.
  lemma RetryCharges(db: Db, id: StepId, error: Str, nextRunAt: int, j: StepId, t: Tally)
    requires Consistent(db, id, t) && (IsRunning(db, j) ==> db.steps[j].attempts < db.steps[j].maxAttempts)
    ensures Consistent(RetryStep(db, j, error, nextRunAt), id,
                       if j == id && IsRunning(db, id) then t.(retries := t.retries + 1) else t)
  {
  }

  lemma ResetCharges(db: Db, run: Str, now: int, id: StepId, t: Tally)
    requires Consistent(db, id, t)
    ensures Consistent(RetryDeadLetter(db, run, now), id, if run == id.run && IsDeadLetter(db, run) then Tally(0, 0, 0) else t)
  {
  }

  lemma InsertCharges(db: Db, m: NewRun, id: StepId, t: Tally)
    requires Rows(db) && m.id !in db.runs && forall name | name in m.steps :: WellFormedStep(m.steps[name])
    requires Consistent(db, id, t) && (id !in db.steps ==> t == Tally(0, 0, 0))
    ensures Consistent(Inserted(db, m), id, t)
  {
    if id.run == m.id && id.name in m.steps {
      assert WellFormedStep(m.steps[id.name]);
    }
  }

  lemma PrepareCharges(db0: Db, a: Db, now: int, id: StepId, t: Tally)
    requires Prepares(db0, a, now) && Consistent(db0, id, t)
    ensures Consistent(a, id, t) && (id in db0.steps <==> id in a.steps)
  {
    PrepareUndisturbed(db0, a, now);
    PrepareSteady(db0, a, now);
  }

  lemma StrategyCharges(db: Db, n: NewRun, now: int, id: StepId, t: Tally)
    requires Consistent(db, id, t)
    ensures Consistent(CancelAll(db, StrategyVictims(db, n), now), id, t)
  {
    CancelAllUndisturbed(db, StrategyVictims(db, n), now);
  }

  lemma PartsCharge(db0: Db, m: NewRun, now: int, out: Outcome, a: Db, inserted: bool, id: StepId, t: Tally)
    requires Enqueues(db0, m, now, out, a, inserted) && Rows(db0) && m.id !in db0.runs
    requires forall name | name in m.steps :: WellFormedStep(m.steps[name])
    requires Consistent(db0, id, t) && (id !in db0.steps ==> t == Tally(0, 0, 0))
    ensures Consistent(out.db, id, t)
  {
    if inserted {
      PrepareCharges(db0, a, now, id, t);
      PrepareRows(db0, a, now);
      InsertCharges(a, m, id, t);
      StrategyCharges(Inserted(a, m), m, now, id, t);
    }
  }

  lemma EnqueueCharges(db: Db, n: NewRun, now: int, id: StepId, t: Tally)
    requires Rows(db) && WellFormed(n) && n.id !in db.runs && Consistent(db, id, t)
    ensures Consistent(Apply(db, EnqueueRun(n, now)), id, if id in db.steps then t else Tally(0, 0, 0))
  {
    if EnqueueOne(db, n, now).Enqueued? {
      var a, inserted := EnqueueParts(db, n, now);
      StampedWell(n, db.next + 1);
      PartsCharge(Numbered(db, n), Stamped(n, db.next + 1), now, EnqueueOne(db, n, now), a, inserted,
                  id, if id in db.steps then t else Tally(0, 0, 0));
    }
  }

  // ---- over whole runs of the store ------------------------------------------------------

  lemma OpConsistent(db: Db, op: Op, id: StepId, t: Tally)
    requires Rows(db) && Enabled(db, op) && Consistent(db, id, t)
    ensures Consistent(Apply(db, op), id, Tallied(db, op, id, t))
  {
    if op.EnqueueRun? {
      EnqueueCharges(db, op.n, op.now, id, t);
    } else if op.ClaimQueue? {
      ClaimsCharge(db, op.cands, op.c, id, t);
    } else if op.DeadLetterRetried? {
      ResetCharges(db, op.run, op.now, id, t);
    } else if op.StepRetried? {
      RetryCharges(db, id, op.error, op.nextRunAt, op.id, t);
    } else if op.StepParked? || op.StepRequeued? {
      RefundsCharge(db, op, id, t);
    } else if op.EventEmitted? {
      WakeCharges(db, op.event, op.payload, id, t);
    } else if BystanderOp(op) {
      OpUndisturbed(db, op);
    } else {
      AwaitCharges(db, op, id, t);
    }
  }

  lemma {:induction false} AttemptsAlways(ops: seq<Op>, id: StepId)
    requires Legal(ops)
    ensures Consistent(Exec(ops), id, TallyOf(ops, id))
  {
    if ops != [] {
      var front := ops[..|ops| - 1];
      AttemptsAlways(front, id);
      RowsAlways(front);
      OpConsistent(Exec(front), ops[|ops| - 1], id, TallyOf(front, id));
    }
  }

  // However parks, pauses, suspensions, wakes and reboots interleave, a step is
  // retried at most maxAttempts - 1 times, its attempts are its fresh claims less
  // its refunds, and there is at least one of them while it is in hand.
  lemma RetriesEnd(ops: seq<Op>, id: StepId)
    requires Legal(ops) && id in Exec(ops).steps
    ensures var s, t := Exec(ops).steps[id], TallyOf(ops, id);
      && t.retries <= s.maxAttempts - 1
      && s.attempts == t.claims - t.refunds
      && (InHand(s) ==> s.attempts >= 1)
  {
    AttemptsAlways(ops, id);
  }
}
