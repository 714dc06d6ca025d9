// Claims in the columns of the tables: which steps are due, in which order they are
// served, and what becomes of their rows.

module Claims {
  import opened Names
  import opened Schema
  import opened Transitions

  // ---- which steps are due ------------------------------------------------------------------

  predicate Finished(s: Status) {
    s.Succeeded? || s.Failed? || s.Cancelled? || s.Interrupted?
  }

  // Fewer steps with the key execute than the step's own limit allows; no limit, no key.
  predicate KeyFree(steps: map<StepId, Step>, s: Step) {
    || s.key == Empty || s.keyLimit <= 0
    || |set j | j in steps && steps[j].status.Running? && steps[j].key == s.key| < s.keyLimit
  }

  predicate KeysFree(steps: map<StepId, Step>, s: Step) {
    forall name | name in s.keys && s.keys[name].limit > 0 ::
      |set j | j in steps && steps[j].status.Running? && name in steps[j].keys && steps[j].keys[name].value == s.keys[name].value|
      < s.keys[name].limit
  }

  // Every step with a smaller number in the sequence is over.
  predicate InTurn(steps: map<StepId, Step>, s: Step) {
    s.seqKey == Empty ||
    forall j | j in steps && steps[j].seqKey == s.seqKey && steps[j].seqNo < s.seqNo :: Finished(steps[j].status) || steps[j].status.Paused?
  }

  predicate Unpaused(db: Db, id: StepId)
    requires id in db.steps
  {
    db.steps[id].queue !in db.pausedQueues && !(id.run in db.runs && db.runs[id.run].status.Paused?)
  }

  predicate MayStart(db: Db, id: StepId)
    requires id in db.steps
  {
    Unpaused(db, id) && KeyFree(db.steps, db.steps[id]) && KeysFree(db.steps, db.steps[id]) && InTurn(db.steps, db.steps[id])
  }

  lemma KeyGateIs(steps: map<StepId, Step>, id: StepId)
    requires id in steps
    ensures KeyGate(steps, id) <==> KeyFree(steps, steps[id])
  {
    var s := steps[id];
    if s.key != Empty {
      assert Holders(steps, Main(s.key)) == set j | j in steps && steps[j].status.Running? && steps[j].key == s.key;
    }
  }

  lemma KeysGateIs(steps: map<StepId, Step>, id: StepId)
    requires id in steps
    ensures KeysGate(steps, id) <==> KeysFree(steps, steps[id])
  {
    var s := steps[id];
    forall name | name in s.keys
      ensures Holders(steps, Extra(name, s.keys[name].value))
        == set j | j in steps && steps[j].status.Running? && name in steps[j].keys && steps[j].keys[name].value == s.keys[name].value
    {
    }
  }

  lemma SequenceGateIs(steps: map<StepId, Step>, id: StepId)
    requires id in steps
    ensures SequenceGate(steps, id) <==> InTurn(steps, steps[id])
  {
  }

  lemma GatesAre(db: Db, id: StepId)
    requires id in db.steps
    ensures Gates(db, id) <==> MayStart(db, id)
  {
    KeyGateIs(db.steps, id);
    KeysGateIs(db.steps, id);
    SequenceGateIs(db.steps, id);
  }

  // A claim sees exactly the steps of its queue whose time has come, whose labels it
  // covers, and that may start.
  lemma DueExactly(db: Db, q: QueueClaim, id: StepId, now: int, labels: set<Str>)
    ensures Due(db, q, id, now, labels) <==>
      && id in db.steps && db.steps[id].queue == q.name && db.steps[id].labels <= labels
      && (|| (db.steps[id].status.Queued? && db.steps[id].runAt <= now)
          || (db.steps[id].status.Suspended? && 0 < db.steps[id].resumeAt && db.steps[id].resumeAt <= now))
      && MayStart(db, id)
  {
    if id in db.steps {
      GatesAre(db, id);
    }
  }

  // ---- how many -----------------------------------------------------------------------------

  // The free slots, or what is left of the rate limit after the claims of the queue in
  // the window (one second, if none is set), whichever is less.
  lemma BudgetIsLeft(db: Db, q: QueueClaim, now: int)
    ensures var window := if q.rateWindow <= 0 then 1_000_000_000 else q.rateWindow;
      var left := q.rateLimit - |set id | id in db.steps && db.steps[id].queue == q.name && db.steps[id].claimedAt >= now - window|;
      && (q.rateLimit <= 0 ==> Budget(db, q, now) == q.limit)
      && (q.rateLimit > 0 ==> Budget(db, q, now) <= q.limit && Budget(db, q, now) <= left && (Budget(db, q, now) == q.limit || Budget(db, q, now) == left))
  {
    var window := if q.rateWindow <= 0 then 1_000_000_000 else q.rateWindow;
    assert StampedSince(db.steps, q.name, now - window)
      == set id | id in db.steps && db.steps[id].queue == q.name && db.steps[id].claimedAt >= now - window;
  }

  // ---- in which order -----------------------------------------------------------------------

  // Higher priority first, then the earlier due time, then the place in the run.
  predicate ServedBefore(a: Step, b: Step) {
    && a.priority >= b.priority
    && (a.priority == b.priority ==> a.runAt <= b.runAt)
    && (a.priority == b.priority && a.runAt == b.runAt ==> a.ord <= b.ord)
  }

  // The candidates are in that order, and a due step is left out only when the limit is
  // reached, by steps it does not go before.
  lemma BestFirst(db: Db, q: QueueClaim, cands: seq<Candidate>, limit: int, now: int, labels: set<Str>)
    requires IsAnswer(db, q, cands, limit, now, labels)
    ensures forall i, j | 0 <= i < j < |cands| :: cands[i].id != cands[j].id && ServedBefore(db.steps[cands[i].id], db.steps[cands[j].id])
    ensures forall i | 0 <= i < |cands| :: Due(db, q, cands[i].id, now, labels)
    ensures forall id | Due(db, q, id, now, labels) && (forall i | 0 <= i < |cands| :: cands[i].id != id) ::
      |cands| == (if limit < 0 then 0 else limit) && forall i | 0 <= i < |cands| :: ServedBefore(db.steps[cands[i].id], db.steps[id])
  {
  }

  // ---- what is claimed ----------------------------------------------------------------------

  // The row of a step whose claim was a fresh one, or the wake of a suspended one.
  predicate ClaimedAs(s: Step, s1: Step, c: Claimer) {
    && s1.status.Running? && s1.worker == c.worker && s1.lease == c.lease && s1.claimedAt == c.now
    && (s.status.Queued? ==>
          && s1.attempts == s.attempts + 1 && s1.startedAt == (if s.startedAt == 0 then c.now else s.startedAt)
          && s1.resumeAt == s.resumeAt && s1.wait == s.wait)
    && (s.status.Suspended? ==> s1.attempts == s.attempts && s1.startedAt == s.startedAt && s1.resumeAt == 0 && s1.wait.NoWait?)
    && (s.status.Queued? || s.status.Suspended?)
    && s1 == s.(status := s1.status, worker := s1.worker, lease := s1.lease, claimedAt := s1.claimedAt, attempts := s1.attempts,
                startedAt := s1.startedAt, resumeAt := s1.resumeAt, wait := s1.wait)
  }

  lemma {:induction false} ClaimedRows(db: Db, cands: seq<Candidate>, c: Claimer, id: StepId)
    ensures var db1 := ClaimAll(db, cands, c);
      && (id in db1.steps <==> id in db.steps)
      && (id in ClaimLog(db, cands, c) ==> id in db.steps && ClaimedAs(db.steps[id], db1.steps[id], c))
      && (id !in ClaimLog(db, cands, c) && id in db.steps ==> db1.steps[id] == db.steps[id])
      && db1.journal == db.journal && db1.next == db.next && db1.pausedQueues == db.pausedQueues
    decreases |cands|
  {
    if cands != [] {
      ClaimedRows(db, cands[..|cands| - 1], c, id);
    }
  }

  // A claim with a slot left serves the first of the due steps.
  lemma FirstIsClaimed(db: Db, q: QueueClaim, cands: seq<Candidate>, c: Claimer, labels: set<Str>, id: StepId)
    requires IsAnswer(db, q, cands, Budget(db, q, c.now), c.now, labels) && Budget(db, q, c.now) > 0 && Due(db, q, id, c.now, labels)
    ensures cands != [] && cands[0].id in ClaimLog(db, cands, c) && ServedBefore(db.steps[cands[0].id], db.steps[id])
  {
    assert cands != [];
    if forall i | 0 <= i < |cands| :: cands[i].id != id {
      BestFirst(db, q, cands, Budget(db, q, c.now), c.now, labels);
    }
    HeadClaimed(db, cands, c);
  }

  lemma {:induction false} HeadClaimed(db: Db, cands: seq<Candidate>, c: Claimer)
    requires cands != [] && Claimable(db, cands[0].id, cands[0].resumed, c.now)
    ensures cands[0].id in ClaimLog(db, cands, c)
    decreases |cands|
  {
    if |cands| == 1 {
      assert cands[..0] == [];
    } else {
      HeadClaimed(db, cands[..|cands| - 1], c);
    }
  }

  // A step no key limits.
  predicate Unlimited(s: Step) {
    (s.key == Empty || s.keyLimit <= 0) && forall name | name in s.keys :: s.keys[name].limit <= 0
  }

  function Ids(cands: seq<Candidate>): seq<StepId> {
    seq(|cands|, i requires 0 <= i < |cands| => cands[i].id)
  }

  // Where no key limits the candidates all of them are claimed, in their order.
  lemma AllClaimed(db: Db, q: QueueClaim, cands: seq<Candidate>, limit: int, c: Claimer, labels: set<Str>)
    requires IsAnswer(db, q, cands, limit, c.now, labels) && forall i | 0 <= i < |cands| :: Unlimited(db.steps[cands[i].id])
    ensures ClaimLog(db, cands, c) == Ids(cands)
  {
    PrefixClaimed(db, cands, c, |cands|);
    assert cands[..|cands|] == cands;
  }

  // What a claim asks of its candidates, when no key limits them.
  ghost predicate Ready(db: Db, cands: seq<Candidate>, now: int) {
    && (forall i | 0 <= i < |cands| :: Claimable(db, cands[i].id, cands[i].resumed, now) && Unlimited(db.steps[cands[i].id]))
    && forall i, j | 0 <= i < j < |cands| :: cands[i].id != cands[j].id
  }

  lemma {:induction false} PrefixClaimed(db: Db, cands: seq<Candidate>, c: Claimer, n: nat)
    requires Ready(db, cands, c.now) && n <= |cands|
    ensures ClaimLog(db, cands[..n], c) == Ids(cands[..n])
    decreases n
  {
    if n > 0 {
      PrefixClaimed(db, cands, c, n - 1);
      assert cands[..n][..n - 1] == cands[..n - 1];
      StillClaimable(db, cands, c, n - 1);
      assert Ids(cands[..n]) == Ids(cands[..n - 1]) + [cands[n - 1].id];
    }
  }

  lemma StillClaimable(db: Db, cands: seq<Candidate>, c: Claimer, n: nat)
    requires Ready(db, cands, c.now) && n < |cands| && ClaimLog(db, cands[..n], c) == Ids(cands[..n])
    ensures Claimable(ClaimAll(db, cands[..n], c), cands[n].id, cands[n].resumed, c.now)
  {
    var db1, id := ClaimAll(db, cands[..n], c), cands[n].id;
    assert id !in Ids(cands[..n]);
    ClaimedRows(db, cands[..n], c, id);
    ClaimsKeepRunsUnpaused(db, cands[..n], c, id.run);
    assert Claimable(db, id, cands[n].resumed, c.now);
    forall j | j in db1.steps ensures j in db.steps && IsActive(db1.steps[j].status) == IsActive(db.steps[j].status)
      && db1.steps[j].seqKey == db.steps[j].seqKey && db1.steps[j].seqNo == db.steps[j].seqNo
    {
      ClaimedRows(db, cands[..n], c, j);
    }
  }

  lemma {:induction false} ClaimsKeepRunsUnpaused(db: Db, cands: seq<Candidate>, c: Claimer, run: Str)
    ensures var db1 := ClaimAll(db, cands, c);
      (run in db1.runs <==> run in db.runs) && (run in db.runs ==> (db1.runs[run].status.Paused? <==> db.runs[run].status.Paused?))
    decreases |cands|
  {
    if cands != [] {
      ClaimsKeepRunsUnpaused(db, cands[..|cands| - 1], c, run);
    }
  }

  // A QUEUED run of which a fresh step was claimed executes, and every other run is as
  // it was.
  predicate FreshClaimed(db: Db, log: seq<StepId>, run: Str) {
    exists id :: id in log && id.run == run && id in db.steps && db.steps[id].status.Queued?
  }

  lemma {:induction false} ClaimedRuns(db: Db, cands: seq<Candidate>, c: Claimer, run: Str)
    ensures var db1, log := ClaimAll(db, cands, c), ClaimLog(db, cands, c);
      && (run in db1.runs <==> run in db.runs)
      && (run in db.runs ==>
            var r := db.runs[run];
            db1.runs[run] ==
              if r.status.Queued? && FreshClaimed(db, log, run) then
                r.(status := Running, attempts := r.attempts + 1, startedAt := if r.startedAt == 0 then c.now else r.startedAt)
              else r)
    decreases |cands|
  {
    if cands != [] {
      var front, last := cands[..|cands| - 1], cands[|cands| - 1];
      var log0 := ClaimLog(db, front, c);
      ClaimedRuns(db, front, c, run);
      ClaimedRows(db, front, c, last.id);
      if Claimable(ClaimAll(db, front, c), last.id, last.resumed, c.now) {
        assert last.id !in log0;
        assert last.id in log0 + [last.id] && forall id | id in log0 :: id in log0 + [last.id];
      }
    }
  }
}
