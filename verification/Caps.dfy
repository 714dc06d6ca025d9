// Concurrency caps: over every run of the store, the step that was claimed i-th
// among the RUNNING holders of a slot has a limit of at least i.

module Caps {
  import opened Collections
  import opened Names
  import opened Schema
  import opened Transitions
  import opened Enqueue
  import opened Machine
  import opened Frame

  // When each step was last claimed, counting claims.
  datatype Turns = Turns(of: map<StepId, nat>, count: nat)

  ghost function Claimed(db: Db, t: Turns, cands: seq<Candidate>, c: Claimer): Turns
    decreases |cands|
  {
    if cands == [] then t
    else
      var front, last := cands[..|cands| - 1], cands[|cands| - 1];
      var t1 := Claimed(db, t, front, c);
      if Claimable(ClaimAll(db, front, c), last.id, last.resumed, c.now)
      then Turns(t1.of[last.id := t1.count], t1.count + 1) else t1
  }

  // The claim history of a sequence of operations.
  ghost function History(ops: seq<Op>): Turns {
    if ops == [] then Turns(map[], 0)
    else
      var front, op := ops[..|ops| - 1], ops[|ops| - 1];
      if op.ClaimQueue? then Claimed(Exec(front), History(front), op.cands, op.c) else History(front)
  }

  // The RUNNING holders of a slot claimed no later than `id`.
  ghost function Ahead(steps: map<StepId, Step>, t: Turns, slot: Slot, id: StepId): set<StepId> {
    set j | j in Holders(steps, slot) && j in t.of && id in t.of && t.of[j] <= t.of[id]
  }

  ghost predicate Timed(steps: map<StepId, Step>, t: Turns) {
    forall id | id in steps && steps[id].status.Running? :: id in t.of && t.of[id] < t.count
  }

  ghost predicate Capped(steps: map<StepId, Step>, t: Turns) {
    forall id, slot | id in Holders(steps, slot) :: |Ahead(steps, t, slot, id)| <= LimitOf(steps[id], slot)
  }

  // No step has a limit that would count as none.
  predicate Limits(s: Step) {
    (s.key != Empty ==> s.keyLimit >= 1) && forall name | name in s.keys :: s.keys[name].limit >= 1
  }

  ghost predicate Limited(steps: map<StepId, Step>) {
    forall id | id in steps :: Limits(steps[id])
  }

  ghost predicate CapInv(db: Db, t: Turns) {
    Timed(db.steps, t) && Limited(db.steps) && Capped(db.steps, t)
  }

  lemma QuietCaps(db: Db, db1: Db, t: Turns)
    requires Quiet(db, db1) && CapInv(db, t)
    ensures CapInv(db1, t)
  {
    forall id | id in db1.steps ensures Limits(db1.steps[id]) {
      assert StepFrame(db.steps[id], db1.steps[id]) && Limits(db.steps[id]);
    }
    forall id, slot | id in Holders(db1.steps, slot)
      ensures |Ahead(db1.steps, t, slot, id)| <= LimitOf(db1.steps[id], slot)
    {
      assert StepFrame(db.steps[id], db1.steps[id]) && id in Holders(db.steps, slot);
      forall j | j in Ahead(db1.steps, t, slot, id) ensures j in Ahead(db.steps, t, slot, id) {
        assert StepFrame(db.steps[j], db1.steps[j]);
      }
      SubsetSize(Ahead(db1.steps, t, slot, id), Ahead(db.steps, t, slot, id));
    }
  }

  // Both gates say the same of a slot: it has room for the step.
  lemma GatesGiveRoom(db: Db, id: StepId, slot: Slot)
    requires id in db.steps && Gates(db, id)
    requires Holds(db.steps[id], slot) && LimitOf(db.steps[id], slot) > 0
    ensures |Holders(db.steps, slot)| < LimitOf(db.steps[id], slot)
  {
  }

  lemma ClaimedCap(db: Db, id: StepId, resumed: bool, c: Claimer, t: Turns, slot: Slot)
    requires CapInv(db, t) && Claimable(db, id, resumed, c.now) && Holds(db.steps[id], slot)
    ensures var s1, t1 := ClaimOne(db, id, resumed, c).steps, Turns(t.of[id := t.count], t.count + 1);
      |Ahead(s1, t1, slot, id)| <= LimitOf(s1[id], slot)
  {
    var s1, t1 := ClaimOne(db, id, resumed, c).steps, Turns(t.of[id := t.count], t.count + 1);
    assert Limits(db.steps[id]);
    GatesGiveRoom(db, id, slot);
    assert Ahead(s1, t1, slot, id) <= Holders(db.steps, slot) + {id};
    SubsetSize(Ahead(s1, t1, slot, id), Holders(db.steps, slot) + {id});
  }

  lemma ClaimCaps(db: Db, id: StepId, resumed: bool, c: Claimer, t: Turns)
    requires CapInv(db, t) && Claimable(db, id, resumed, c.now)
    ensures CapInv(ClaimOne(db, id, resumed, c), Turns(t.of[id := t.count], t.count + 1))
  {
    var s1, t1 := ClaimOne(db, id, resumed, c).steps, Turns(t.of[id := t.count], t.count + 1);
    forall x | x in s1 ensures Limits(s1[x]) {
      assert Limits(db.steps[x]);
    }
    forall x, slot | x in Holders(s1, slot) ensures |Ahead(s1, t1, slot, x)| <= LimitOf(s1[x], slot) {
      if x == id {
        ClaimedCap(db, id, resumed, c, t, slot);
      } else {
        assert x in Holders(db.steps, slot);
        assert Ahead(s1, t1, slot, x) <= Ahead(db.steps, t, slot, x);
        SubsetSize(Ahead(s1, t1, slot, x), Ahead(db.steps, t, slot, x));
      }
    }
  }

  lemma {:induction false} ClaimAllCaps(db: Db, t: Turns, cands: seq<Candidate>, c: Claimer)
    requires CapInv(db, t)
    ensures CapInv(ClaimAll(db, cands, c), Claimed(db, t, cands, c))
    decreases |cands|
  {
    if cands != [] {
      var front, last := cands[..|cands| - 1], cands[|cands| - 1];
      ClaimAllCaps(db, t, front, c);
      if Claimable(ClaimAll(db, front, c), last.id, last.resumed, c.now) {
        ClaimCaps(ClaimAll(db, front, c), last.id, last.resumed, c, Claimed(db, t, front, c));
      }
    }
  }

  lemma InsertCaps(db: Db, n: NewRun, t: Turns)
    requires CapInv(db, t) && forall name | name in n.steps :: !n.steps[name].status.Running? && Limits(n.steps[name])
    ensures CapInv(Inserted(db, n), t)
  {
    var s1 := Inserted(db, n).steps;
    forall id, slot | id in Holders(s1, slot)
      ensures |Ahead(s1, t, slot, id)| <= LimitOf(s1[id], slot)
    {
      assert id in Holders(db.steps, slot) && s1[id] == db.steps[id];
      assert Ahead(s1, t, slot, id) <= Ahead(db.steps, t, slot, id);
      SubsetSize(Ahead(s1, t, slot, id), Ahead(db.steps, t, slot, id));
    }
  }

  lemma EnqueueCaps(db: Db, n: NewRun, now: int, t: Turns)
    requires CapInv(db, t) && WellFormed(n)
    ensures CapInv(Apply(db, EnqueueRun(n, now)), t)
  {
    if EnqueueOne(db, n, now).Enqueued? {
      var a, inserted := EnqueueParts(db, n, now);
      var db0, m := Numbered(db, n), Stamped(n, db.next + 1);
      if inserted {
        PrepareSteady(db0, a, now);
        QuietCaps(db0, a, t);
        forall name | name in m.steps ensures !m.steps[name].status.Running? && Limits(m.steps[name]) {
          assert WellFormedStep(n.steps[name]);
        }
        InsertCaps(a, m, t);
        StrategySteady(Inserted(a, m), m, now);
        QuietCaps(Inserted(a, m), EnqueueOne(db, n, now).db, t);
      }
    }
  }

  // In every reachable state, whatever the operations were.
  lemma {:induction false} CapsAlways(ops: seq<Op>)
    requires Legal(ops)
    ensures CapInv(Exec(ops), History(ops))
  {
    if ops != [] {
      var front, op := ops[..|ops| - 1], ops[|ops| - 1];
      CapsAlways(front);
      if op.ClaimQueue? {
        ClaimAllCaps(Exec(front), History(front), op.cands, op.c);
      } else if op.EnqueueRun? {
        EnqueueCaps(Exec(front), op.n, op.now, History(front));
      } else {
        OpQuiet(Exec(front), op);
        QuietCaps(Exec(front), Exec(ops), History(front));
      }
    }
  }

  lemma LatestHolder(steps: map<StepId, Step>, t: Turns, slot: Slot, some: set<StepId>) returns (id: StepId)
    requires Timed(steps, t) && some <= Holders(steps, slot) && some != {}
    ensures id in some && forall j | j in some :: t.of[j] <= t.of[id]
  {
    id :| id in some;
    var rest := some - {id};
    assert some == rest + {id};
    if rest != {} {
      var other := LatestHolder(steps, t, slot, rest);
      if t.of[other] > t.of[id] { id := other; }
    }
  }

  // A slot whose steps all state the same limit never has more RUNNING.
  lemma UniformCap(ops: seq<Op>, slot: Slot, limit: nat)
    requires Legal(ops)
    requires forall id | id in Exec(ops).steps && Holds(Exec(ops).steps[id], slot) :: LimitOf(Exec(ops).steps[id], slot) == limit
    ensures |Holders(Exec(ops).steps, slot)| <= limit
  {
    CapsAlways(ops);
    var steps, t := Exec(ops).steps, History(ops);
    if Holders(steps, slot) != {} {
      var id := LatestHolder(steps, t, slot, Holders(steps, slot));
      assert Ahead(steps, t, slot, id) == Holders(steps, slot);
    }
  }
}
