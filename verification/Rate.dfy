// The sliding rate window: with a fixed limit and window per queue and a clock
// that never runs backwards, no interval of the window's length holds more claim
// stamps than the limit.

module Rate {
  import opened Collections
  import opened Names
  import opened Schema
  import opened Transitions
  import opened Enqueue
  import opened Machine
  import opened Frame

  // The steps of a queue last claimed in [from, from + window].
  function Stamped(steps: map<StepId, Step>, queue: Str, from: int, window: int): set<StepId> {
    set id | id in steps && steps[id].queue == queue && from <= steps[id].claimedAt <= from + window
  }

  // The queue's limit and window, the same at every claim.
  predicate Configured(op: Op, queue: Str, limit: int, window: int) {
    op.ClaimQueue? && op.q.name == queue ==> op.q.rateLimit == limit && Window(op.q) == window
  }

  ghost predicate RateInv(steps: map<StepId, Step>, queue: Str, limit: int, window: int, clock: int) {
    && (forall id | id in steps :: steps[id].claimedAt <= clock)
    && (forall from :: from > 0 ==> |Stamped(steps, queue, from, window)| <= limit)
  }

  lemma QuietRate(db: Db, db1: Db, queue: Str, limit: int, window: int, clock: int, now: int)
    requires Quiet(db, db1) && RateInv(db.steps, queue, limit, window, clock) && 0 <= clock <= now
    ensures RateInv(db1.steps, queue, limit, window, now)
  {
    forall id | id in db1.steps ensures db1.steps[id].claimedAt <= now {
      assert StepFrame(db.steps[id], db1.steps[id]);
    }
    forall from: int | from > 0 ensures |Stamped(db1.steps, queue, from, window)| <= limit {
      forall id | id in Stamped(db1.steps, queue, from, window) ensures id in Stamped(db.steps, queue, from, window) {
        assert StepFrame(db.steps[id], db1.steps[id]);
      }
      SubsetSize(Stamped(db1.steps, queue, from, window), Stamped(db.steps, queue, from, window));
    }
  }

  lemma InsertRate(db: Db, n: NewRun, queue: Str, limit: int, window: int, clock: int)
    requires RateInv(db.steps, queue, limit, window, clock) && clock >= 0
    requires forall name | name in n.steps :: n.steps[name].claimedAt == 0
    ensures RateInv(Inserted(db, n).steps, queue, limit, window, clock)
  {
    var s1 := Inserted(db, n).steps;
    forall from: int | from > 0 ensures |Stamped(s1, queue, from, window)| <= limit {
      assert Stamped(s1, queue, from, window) <= Stamped(db.steps, queue, from, window);
      SubsetSize(Stamped(s1, queue, from, window), Stamped(db.steps, queue, from, window));
    }
  }

  lemma EnqueueRate(db: Db, n: NewRun, now: int, queue: Str, limit: int, window: int, clock: int)
    requires RateInv(db.steps, queue, limit, window, clock) && 0 <= clock <= now && WellFormed(n)
    ensures RateInv(Apply(db, EnqueueRun(n, now)).steps, queue, limit, window, now)
  {
    if EnqueueOne(db, n, now).Enqueued? {
      var a, inserted := EnqueueParts(db, n, now);
      var db0, m := Numbered(db, n), Enqueue.Stamped(n, db.next + 1);
      if inserted {
        PrepareSteady(db0, a, now);
        QuietRate(db0, a, queue, limit, window, clock, now);
        forall name | name in m.steps ensures m.steps[name].claimedAt == 0 {
          assert WellFormedStep(n.steps[name]);
        }
        InsertRate(a, m, queue, limit, window, now);
        StrategySteady(Inserted(a, m), m, now);
        QuietRate(Inserted(a, m), EnqueueOne(db, n, now).db, queue, limit, window, now, now);
      }
    }
  }

  function Ids(cands: seq<Candidate>): set<StepId> {
    set i | 0 <= i < |cands| :: cands[i].id
  }

  lemma IdsPush(cands: seq<Candidate>)
    requires cands != []
    ensures Ids(cands) == Ids(cands[..|cands| - 1]) + {cands[|cands| - 1].id}
  {
    assert forall i | 0 <= i < |cands| - 1 :: cands[..|cands| - 1][i] == cands[i];
  }

  lemma {:induction false} IdsSize(cands: seq<Candidate>)
    ensures |Ids(cands)| <= |cands|
  {
    if cands != [] {
      IdsPush(cands);
      IdsSize(cands[..|cands| - 1]);
    }
  }

  // The stamps after a claim are the old ones, or `now` on a candidate.
  ghost predicate Restamps(steps: map<StepId, Step>, s1: map<StepId, Step>, ids: set<StepId>, now: int) {
    && s1.Keys == steps.Keys
    && forall id | id in s1 ::
         && s1[id].queue == steps[id].queue
         && (s1[id].claimedAt == steps[id].claimedAt || (s1[id].claimedAt == now && id in ids))
  }

  lemma {:induction false} ClaimStamps(db: Db, cands: seq<Candidate>, c: Claimer)
    ensures Restamps(db.steps, ClaimAll(db, cands, c).steps, Ids(cands), c.now)
    decreases |cands|
  {
    if cands != [] {
      var front, last := cands[..|cands| - 1], cands[|cands| - 1];
      ClaimStamps(db, front, c);
      IdsPush(cands);
      var mid := ClaimAll(db, front, c);
      assert Restamps(mid.steps, ClaimOne(mid, last.id, last.resumed, c).steps, {last.id}, c.now);
    }
  }

  // A window that `now` falls into starts no earlier than the window the budget
  // was counted over.
  lemma WindowAtNow(steps: map<StepId, Step>, s1: map<StepId, Step>, ids: set<StepId>, queue: Str, from: int, window: int, now: int)
    requires Restamps(steps, s1, ids, now) && from <= now <= from + window
    ensures |Stamped(s1, queue, from, window)| <= |StampedSince(steps, queue, now - window)| + |ids|
  {
    var recent := StampedSince(steps, queue, now - window);
    assert Stamped(s1, queue, from, window) <= recent + ids;
    SubsetSize(Stamped(s1, queue, from, window), recent + ids);
  }

  lemma WindowElsewhere(steps: map<StepId, Step>, s1: map<StepId, Step>, ids: set<StepId>, queue: Str, from: int, window: int, now: int)
    requires Restamps(steps, s1, ids, now)
    requires !(from <= now <= from + window) || forall id | id in ids && id in steps :: steps[id].queue != queue
    ensures |Stamped(s1, queue, from, window)| <= |Stamped(steps, queue, from, window)|
  {
    assert Stamped(s1, queue, from, window) <= Stamped(steps, queue, from, window);
    SubsetSize(Stamped(s1, queue, from, window), Stamped(steps, queue, from, window));
  }

  lemma ClaimRate(db: Db, q: QueueClaim, cands: seq<Candidate>, c: Claimer, queue: Str, limit: int, window: int, clock: int)
    requires |cands| > 0 ==> |cands| <= Budget(db, q, c.now)
    requires forall id | id in Ids(cands) :: id in db.steps && db.steps[id].queue == q.name
    requires q.name == queue ==> q.rateLimit == limit && Window(q) == window
    requires RateInv(db.steps, queue, limit, window, clock) && clock <= c.now && limit > 0 && window > 0
    ensures RateInv(ClaimAll(db, cands, c).steps, queue, limit, window, c.now)
  {
    var s1, now, ids := ClaimAll(db, cands, c).steps, c.now, Ids(cands);
    ClaimStamps(db, cands, c);
    IdsSize(cands);
    forall from: int | from > 0 ensures |Stamped(s1, queue, from, window)| <= limit {
      if q.name == queue && cands != [] && from <= now <= from + window {
        WindowAtNow(db.steps, s1, ids, queue, from, window, now);
      } else {
        assert cands == [] ==> ids == {};
        WindowElsewhere(db.steps, s1, ids, queue, from, window, now);
      }
    }
  }

  // For every instant t > 0, at most `limit` steps of the queue carry a claim
  // stamp in [t, t + window].
  lemma {:induction false} RateAlways(ops: seq<Op>, queue: Str, limit: int, window: int)
    requires Legal(ops) && limit > 0 && window > 0
    requires forall op | op in ops :: Configured(op, queue, limit, window)
    ensures RateInv(Exec(ops).steps, queue, limit, window, Clock(ops))
  {
    if ops != [] {
      var front, op := ops[..|ops| - 1], ops[|ops| - 1];
      assert op in ops;
      RateAlways(front, queue, limit, window);
      ClockNonNegative(front);
      if op.ClaimQueue? {
        ClaimRate(Exec(front), op.q, op.cands, op.c, queue, limit, window, Clock(front));
      } else if op.EnqueueRun? {
        EnqueueRate(Exec(front), op.n, op.now, queue, limit, window, Clock(front));
      } else {
        OpQuiet(Exec(front), op);
        QuietRate(Exec(front), Exec(ops), queue, limit, window, Clock(front), op.At());
      }
    } else {
      forall from: int | from > 0 ensures |Stamped(EMPTY.steps, queue, from, window)| <= limit {
        assert Stamped(EMPTY.steps, queue, from, window) == {};
      }
    }
  }
}
