// Unique jobs: at most one live run holds a key, whatever an enqueue does.

module Unique {
  import opened Names
  import opened Schema
  import opened Transitions
  import opened Enqueue
  import opened Machine
  import opened Frame

  // ---- unique keys -------------------------------------------------------------------

  // Only live runs hold a unique key, and at most one run per workflow and key.
  ghost predicate UniqueInv(db: Db) {
    && (forall r | r in db.runs && db.runs[r].uniqueKey != Empty :: !IsTerminal(db.runs[r].status))
    && (forall q, r | q in db.runs && r in db.runs && db.runs[q].uniqueKey != Empty
                      && db.runs[q].uniqueKey == db.runs[r].uniqueKey && db.runs[q].workflow == db.runs[r].workflow :: q == r)
  }

  lemma QuietUnique(db: Db, db1: Db)
    requires Quiet(db, db1) && UniqueInv(db)
    ensures UniqueInv(db1)
  {
    forall r | r in db1.runs && db1.runs[r].uniqueKey != Empty
      ensures !IsTerminal(db1.runs[r].status) && db.runs[r].uniqueKey == db1.runs[r].uniqueKey && db.runs[r].workflow == db1.runs[r].workflow
    {
      assert RunFrame(db.runs[r], db1.runs[r]);
    }
  }

  lemma ClaimUnique(db: Db, id: StepId, resumed: bool, c: Claimer)
    requires UniqueInv(db)
    ensures UniqueInv(ClaimOne(db, id, resumed, c))
  {
    var db1 := ClaimOne(db, id, resumed, c);
    forall r | r in db1.runs
      ensures r in db.runs && db1.runs[r].uniqueKey == db.runs[r].uniqueKey && db1.runs[r].workflow == db.runs[r].workflow
      ensures IsTerminal(db1.runs[r].status) <==> IsTerminal(db.runs[r].status)
    {
    }
  }

  lemma {:induction false} ClaimAllUnique(db: Db, cands: seq<Candidate>, c: Claimer)
    requires UniqueInv(db)
    ensures UniqueInv(ClaimAll(db, cands, c))
    decreases |cands|
  {
    if cands != [] {
      ClaimAllUnique(db, cands[..|cands| - 1], c);
      ClaimUnique(ClaimAll(db, cands[..|cands| - 1], c), cands[|cands| - 1].id, cands[|cands| - 1].resumed, c);
    }
  }

  lemma InsertUnique(db: Db, n: NewRun)
    requires UniqueInv(db) && !IsTerminal(n.run.status) && (n.run.uniqueKey != Empty ==> !Collides(db, n))
    ensures UniqueInv(Inserted(db, n))
  {
  }

  lemma PartsUnique(db0: Db, m: NewRun, now: int, out: Outcome, a: Db, inserted: bool)
    requires UniqueInv(db0) && Enqueues(db0, m, now, out, a, inserted) && !IsTerminal(m.run.status)
    ensures UniqueInv(out.db)
  {
    PrepareSteady(db0, a, now);
    QuietUnique(db0, a);
    if inserted {
      InsertUnique(a, m);
      StrategySteady(Inserted(a, m), m, now);
      QuietUnique(Inserted(a, m), out.db);
    }
  }

  lemma EnqueueUnique(db: Db, n: NewRun, now: int)
    requires UniqueInv(db) && WellFormed(n) && EnqueueOne(db, n, now).Enqueued?
    ensures UniqueInv(EnqueueOne(db, n, now).db)
  {
    var a, inserted := EnqueueParts(db, n, now);
    PartsUnique(Numbered(db, n), Stamped(n, db.next + 1), now, EnqueueOne(db, n, now), a, inserted);
  }

  // In every reachable state, whatever the operations were.
  lemma {:induction false} UniqueAlways(ops: seq<Op>)
    requires Legal(ops)
    ensures UniqueInv(Exec(ops))
  {
    if ops != [] {
      var front, op := ops[..|ops| - 1], ops[|ops| - 1];
      UniqueAlways(front);
      if op.ClaimQueue? {
        ClaimAllUnique(Exec(front), op.cands, op.c);
      } else if op.EnqueueRun? {
        if EnqueueOne(Exec(front), op.n, op.now).Enqueued? {
          EnqueueUnique(Exec(front), op.n, op.now);
        }
      } else {
        OpQuiet(Exec(front), op);
        QuietUnique(Exec(front), Exec(ops));
      }
    }
  }

  // The unique index never refuses what the resolution lets through, so the only
  // refusal a serial enqueue can meet is the one asked for.
  lemma ResolveNeverCollides(db: Db, n: NewRun, now: int)
    requires UniqueInv(db)
    ensures Resolve(db, n, now).Rejected? <==>
      n.run.uniqueKey != Empty && UniqueHolders(db, n.run.workflow, n.run.uniqueKey) != {} && n.conflict.Error?
    ensures Resolve(db, n, now).Rejected? ==> Resolve(db, n, now).failure.DuplicateJob?
  {
    var holders := UniqueHolders(db, n.run.workflow, n.run.uniqueKey);
    if n.run.uniqueKey != Empty && Collides(db, n) {
      var r :| r in db.runs && db.runs[r].workflow == n.run.workflow && db.runs[r].uniqueKey == n.run.uniqueKey;
      assert r in holders;
    }
    if n.run.uniqueKey != Empty && holders != {} {
      var existing := Holder(holders);
      var a := CancelRow(db, existing, true, now);
      assert a.runs[existing].uniqueKey == Empty;
      assert forall r | r in a.runs && r != existing :: a.runs[r] == db.runs[r];
      assert !Collides(a, n);
    }
  }

  lemma NumberedUnique(db: Db, n: NewRun)
    requires UniqueInv(db)
    ensures UniqueInv(Numbered(db, n)) && Numbered(db, n).runs == db.runs
    ensures var m := Stamped(n, db.next + 1);
      m.run.uniqueKey == n.run.uniqueKey && m.run.workflow == n.run.workflow && m.conflict == n.conflict
  {
  }

  // The unique index in a database with numbers to hand out.
  lemma NumberedNeverCollides(db: Db, n: NewRun, now: int)
    requires UniqueInv(db)
    ensures EnqueueOne(db, n, now).Rejected? <==>
      n.run.uniqueKey != Empty && UniqueHolders(db, n.run.workflow, n.run.uniqueKey) != {} && n.conflict.Error?
    ensures EnqueueOne(db, n, now).Rejected? ==> EnqueueOne(db, n, now).failure.DuplicateJob?
  {
    NumberedUnique(db, n);
    ResolveNeverCollides(Numbered(db, n), Stamped(n, db.next + 1), now);
  }

  lemma EnqueueNeverCollides(ops: seq<Op>, n: NewRun, now: int)
    requires Legal(ops)
    ensures EnqueueOne(Exec(ops), n, now).Rejected? <==>
      n.run.uniqueKey != Empty && UniqueHolders(Exec(ops), n.run.workflow, n.run.uniqueKey) != {} && n.conflict.Error?
    ensures EnqueueOne(Exec(ops), n, now) != Rejected(UniqueViolation)
  {
    UniqueAlways(ops);
    NumberedNeverCollides(Exec(ops), n, now);
  }
}
