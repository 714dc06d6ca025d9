// The store: its tables as fields that each transaction updates in place. Every
// method is proved equal to the transition of the same name.

module Stores {
  import opened Collections
  import opened Names
  import opened Schema
  import opened Transitions
  import opened Enqueue
  import opened Batching
  import opened Unique
  import opened Frame
  import opened Machine
  import opened Completion

  // ---- rows in some order ---------------------------------------------------------------

  ghost predicate Lists<T(!new)>(rows: seq<T>, all: set<T>) {
    && (forall i, j | 0 <= i < j < |rows| :: rows[i] != rows[j])
    && (forall i | 0 <= i < |rows| :: rows[i] in all)
    && forall x :: x in rows <==> x in all
  }

  method ListRows<T(==, !new)>(all: set<T>) returns (rows: seq<T>)
    ensures Lists(rows, all)
  {
    rows := [];
    var rest := all;
    while rest != {}
      invariant rest <= all && Lists(rows, all - rest)
    {
      var x :| x in rest;
      rest := rest - {x};
      rows := rows + [x];
    }
  }

  // LIMIT without an order.
  method UpTo<T(==)>(all: set<T>, most: int) returns (picked: set<T>)
    requires most > 0
    ensures picked <= all && |picked| <= most && (|picked| < most ==> picked == all)
  {
    picked := {};
    var rest := all;
    while rest != {} && |picked| < most
      invariant picked + rest == all && picked !! rest && |picked| <= most
      decreases |rest|
    {
      var x :| x in rest;
      picked, rest := picked + {x}, rest - {x};
    }
  }

  class Store {
    var runs: map<Str, Run>
    var steps: map<StepId, Step>
    var journal: map<StepId, seq<Entry>>
    var next: int
    var pausedQueues: set<Str>

    function Snap(): Db
      reads this
    {
      Db(runs, steps, journal, next, pausedQueues)
    }

    constructor ()
      ensures Snap() == EMPTY
    {
      runs, steps, journal, next, pausedQueues := map[], map[], map[], 0, {};
    }

    method Restore(db: Db)
      modifies this
      ensures Snap() == db
    {
      runs, steps, journal, next, pausedQueues := db.runs, db.steps, db.journal, db.next, db.pausedQueues;
    }

    // ---- claiming ---------------------------------------------------------------------------

    method TakeFresh(id: StepId, c: Claimer)
      requires id in steps
      modifies this`steps, this`runs
      ensures steps == old(steps)[id := ClaimedStep(old(steps)[id], false, c)]
      ensures runs == if id.run in old(runs) then old(runs)[id.run := ClaimedRun(old(runs)[id.run], c.now)] else old(runs)
    {
      var s := steps[id];
      var started := if s.startedAt == 0 then c.now else s.startedAt;
      steps := steps[id := s.(status := Running, attempts := s.attempts + 1, claimedAt := c.now, startedAt := started,
                              worker := c.worker, lease := c.lease)];
      if id.run in runs && runs[id.run].status.Queued? {
        var r := runs[id.run];
        runs := runs[id.run := r.(status := Running, attempts := r.attempts + 1,
                                  startedAt := if r.startedAt == 0 then c.now else r.startedAt)];
      }
    }

    // The claim loop of one queue.
    method Claim(cands: seq<Candidate>, c: Claimer) returns (claims: seq<StepId>)
      modifies this`steps, this`runs
      ensures Snap() == ClaimAll(old(Snap()), cands, c)
      ensures claims == ClaimLog(old(Snap()), cands, c)
    {
      claims := [];
      assert cands[..0] == [];
      for i := 0 to |cands|
        invariant Snap() == ClaimAll(old(Snap()), cands[..i], c)
        invariant claims == ClaimLog(old(Snap()), cands[..i], c)
      {
        assert cands[..i + 1][..i] == cands[..i];
        var id, resumed := cands[i].id, cands[i].resumed;
        if !Claimable(Snap(), id, resumed, c.now) {
          continue;
        }
        if resumed {
          steps := steps[id := steps[id].(status := Running, claimedAt := c.now, resumeAt := 0, wait := NoWait,
                                          worker := c.worker, lease := c.lease)];
        } else {
          TakeFresh(id, c);
        }
        claims := claims + [id];
      }
      assert cands[..|cands|] == cands;
    }

    // ORDER BY and LIMIT over some rows.
    method Top(rows: set<StepId>, limit: int) returns (ids: seq<StepId>)
      requires forall id | id in rows :: id in steps
      ensures |ids| <= NoLess(limit) && forall i | 0 <= i < |ids| :: ids[i] in rows
      ensures forall i, j | 0 <= i < j < |ids| :: ids[i] != ids[j] && NoLater(steps[ids[i]], steps[ids[j]])
      ensures forall id | id in rows && id !in ids :: |ids| == NoLess(limit) && forall i | 0 <= i < |ids| :: NoLater(steps[ids[i]], steps[id])
    {
      ids := [];
      var rest := rows;
      while rest != {} && |ids| < limit
        invariant rest <= rows && |ids| <= NoLess(limit)
        invariant forall i | 0 <= i < |ids| :: ids[i] in rows && ids[i] !in rest
        invariant forall i, j | 0 <= i < j < |ids| :: ids[i] != ids[j] && NoLater(steps[ids[i]], steps[ids[j]])
        invariant forall id | id in rows && id !in rest :: id in ids
        invariant forall i, id | 0 <= i < |ids| && id in rest :: NoLater(steps[ids[i]], steps[id])
        decreases |rest|
      {
        var id := First(rest);
        rest := rest - {id};
        ids := ids + [id];
      }
    }

    // The candidate read: the due steps of the queue, first in claim order.
    method Candidates(q: QueueClaim, limit: int, now: int, labels: set<Str>) returns (cands: seq<Candidate>)
      ensures IsAnswer(Snap(), q, cands, limit, now, labels)
    {
      var due := set id | id in steps && Due(Snap(), q, id, now, labels);
      var ids := Top(due, limit);
      cands := seq(|ids|, i requires 0 <= i < |ids| && ids[i] in steps reads this => Candidate(ids[i], steps[ids[i]].status.Suspended?));
      forall id | Due(Snap(), q, id, now, labels) && (forall i | 0 <= i < |cands| :: cands[i].id != id)
        ensures id in due && id !in ids
      {
        forall i | 0 <= i < |ids| ensures ids[i] != id {
          assert cands[i].id != id;
        }
      }
    }

    method First(ids: set<StepId>) returns (first: StepId)
      requires ids != {} && forall id | id in ids :: id in steps
      ensures first in ids && forall id | id in ids :: NoLater(steps[first], steps[id])
    {
      first :| first in ids;
      var rest := ids - {first};
      while rest != {}
        invariant rest <= ids && first in ids
        invariant forall id | id in ids && id !in rest :: NoLater(steps[first], steps[id])
      {
        var id :| id in rest;
        rest := rest - {id};
        if !NoLater(steps[first], steps[id]) {
          first := id;
        }
      }
    }

    // One queue: the limit is cut down to what the rate window leaves.
    method ClaimQueue(q: QueueClaim, c: Claimer, labels: set<Str>) returns (claims: seq<StepId>, ghost cands: seq<Candidate>)
      modifies this`steps, this`runs
      ensures IsAnswer(old(Snap()), q, cands, Budget(old(Snap()), q, c.now), c.now, labels)
      ensures Snap() == ClaimAll(old(Snap()), cands, c)
      ensures claims == ClaimLog(old(Snap()), cands, c)
    {
      claims, cands := [], [];
      var limit := q.limit;
      if limit > 0 && q.rateLimit > 0 {
        var window := q.rateWindow;
        if window <= 0 {
          window := SECOND;
        }
        var started := |StampedSince(steps, q.name, c.now - window)|;
        if q.rateLimit - started < limit {
          limit := q.rateLimit - started;
        }
      }
      assert NoLess(limit) == NoLess(Budget(Snap(), q, c.now));
      if limit <= 0 {
        return;
      }
      var rows := Candidates(q, limit, c.now, labels);
      SameLimit(Snap(), q, rows, limit, Budget(Snap(), q, c.now), c.now, labels);
      cands := rows;
      claims := Claim(rows, c);
    }

    // Several queues in one transaction.
    method ClaimDueMulti(queues: seq<QueueClaim>, c: Claimer, labels: set<Str>)
      returns (claims: seq<StepId>, ghost answers: seq<seq<Candidate>>)
      modifies this`steps, this`runs
      ensures Answered(old(Snap()), queues, answers, c, labels)
      ensures Snap() == ServeAll(old(Snap()), answers, c)
      ensures claims == ServeLog(old(Snap()), answers, c)
    {
      claims, answers := [], [];
      for i := 0 to |queues|
        invariant |answers| == i && Answered(old(Snap()), queues[..i], answers, c, labels)
        invariant Snap() == ServeAll(old(Snap()), answers, c)
        invariant claims == ServeLog(old(Snap()), answers, c)
      {
        var more, cands := ClaimQueue(queues[i], c, labels);
        assert queues[..i + 1][..i] == queues[..i] && (answers + [cands])[..i] == answers;
        claims, answers := claims + more, answers + [cands];
      }
      assert queues[..|queues|] == queues;
    }

    // ---- completion --------------------------------------------------------------------------

    // The BLOCKED steps of the run that depend on the finished one are read, then
    // the statuses of their dependencies, and those that are ready are queued.
    method UnblockReady(run: Str, name: Str, now: int) returns (ready: set<Str>)
      modifies this`steps
      ensures ready == Unblocked(old(steps), run, name)
      ensures steps == QueueSteps(old(steps), run, ready, now)
    {
      var dependents := Dependents(steps, run, name);
      var blocked := ListRows(dependents);
      var succeeded := SucceededNames(steps, run);
      ready := {};
      ghost var woken: set<StepId> := {};
      for i := 0 to |blocked|
        invariant woken <= dependents
        invariant forall k | 0 <= k < i :: blocked[k] in woken <==> DepsSucceeded(old(steps), blocked[k])
        invariant forall k | i <= k < |blocked| :: blocked[k] !in woken
        invariant ready == set id | id in woken :: id.name
        invariant steps == WakeRows(old(steps), woken, now)
      {
        var id := blocked[i];
        assert id in dependents;
        var allDone := AllIn(steps[id].deps, succeeded);
        SucceededDeps(old(steps), id);
        if allDone {
          steps := steps[id := steps[id].(status := Queued, runAt := now)];
          ready := ready + {id.name};
          woken := woken + {id};
        }
      }
      assert forall id | id in dependents :: id in blocked;
      WokenRows(old(steps), run, name, woken, now);
    }

    method AllIn(deps: seq<Str>, succeeded: set<Str>) returns (all: bool)
      ensures all <==> forall d | d in deps :: d in succeeded
    {
      for i := 0 to |deps|
        invariant forall k | 0 <= k < i :: deps[k] in succeeded
      {
        if deps[i] !in succeeded {
          return false;
        }
      }
      return true;
    }

    method DeleteRun(run: Str)
      modifies this`runs, this`steps, this`journal
      ensures Snap() == DeleteRuns(old(Snap()), {run})
    {
      steps := map id | id in steps && id.run != run :: steps[id];
      journal := map id | id in journal && id.run != run :: journal[id];
      runs := map r | r in runs && r != run :: runs[r];
    }

    method Finish(run: Str, status: Status, output: Str, error: Str, now: int)
      requires run in runs
      modifies this`runs, this`steps, this`journal
      ensures Snap() == FinishRun(old(Snap()), run, status, output, error, now)
    {
      var r := runs[run];
      if !IsTerminal(r.status) {
        runs := runs[run := r.(status := status, output := output, error := error, completedAt := now, uniqueKey := Empty)];
      }
      if r.ephemeral {
        DeleteRun(run);
      }
    }

    // A step of highest order.
    method LastStep(run: Str) returns (last: StepId)
      requires exists id :: id in steps && id.run == run
      ensures last.run == run && IsLast(steps, last)
    {
      var rows := ListRows(StepsOf(steps, run));
      ghost var some :| some in steps && some.run == run;
      assert some in StepsOf(steps, run);
      assert some in rows;
      last := rows[0];
      for i := 0 to |rows|
        invariant last in StepsOf(steps, run)
        invariant forall k | 0 <= k < i :: steps[rows[k]].ord <= steps[last].ord
      {
        if steps[rows[i]].ord > steps[last].ord {
          last := rows[i];
        }
      }
      forall j | j in steps && j.run == run ensures steps[j].ord <= steps[last].ord {
        assert j in StepsOf(steps, run);
        assert j in rows;
      }
    }

    // The terminal check: is any step still active, and if not, how did it end?
    method ConcludeRun(run: Str, ready: set<Str>, now: int) returns (r: CompleteResult)
      requires run in runs && exists id :: id in steps && id.run == run
      modifies this`runs, this`steps, this`journal
      ensures Concludes(old(Snap()), run, ready, now, Snap(), r)
    {
      var active := set id | id in steps && id.run == run && IsActive(steps[id].status);
      if active != {} {
        var id :| id in active;
        return CompleteResult(true, ready, {}, false, Running, Empty, Empty);
      }
      assert !AnyActive(steps, run) by {
        forall id | id in steps && id.run == run ensures !IsActive(steps[id].status) {
          assert id !in active;
        }
      }
      var failed := set id | id in steps && id.run == run && steps[id].status.Failed?;
      var last := LastStep(run);
      var status, error := Succeeded, Empty;
      if failed != {} {
        var id :| id in failed;
        status, error := Failed, steps[id].error;
      } else {
        assert forall id | id in steps && id.run == run :: id !in failed;
      }
      var output := steps[last].output;
      Finish(run, status, output, error, now);
      r := CompleteResult(true, ready, {}, true, status, error, output);
    }

    // completeStepTx, with the step count its caller took. None is a missing run.
    method CompleteStepTx(id: StepId, count: int, output: Str, now: int) returns (r: Option<CompleteResult>)
      modifies this`runs, this`steps, this`journal
      ensures Completes(old(Snap()), id, count, output, now, Snap(), r)
      ensures r.None? ==> id.run !in old(runs)
    {
      if id.run !in runs {
        return None;
      }
      var open := id in steps && (steps[id].status.Queued? || steps[id].status.Running?);
      if IsTerminal(runs[id.run].status) {
        if open {
          steps := steps[id := steps[id].(status := Cancelled)];
        }
        return Some(REFUSED);
      }
      if !open {
        return Some(REFUSED);
      }
      steps := steps[id := steps[id].(status := Succeeded, output := output, error := Empty)];
      if count == 1 {
        Finish(id.run, Succeeded, output, Empty, now);
        return Some(CompleteResult(true, {}, {}, true, Succeeded, Empty, output));
      }
      var ready := UnblockReady(id.run, id.name, now);
      assert id in steps;
      var res := ConcludeRun(id.run, ready, now);
      return Some(res);
    }

    method CompleteStep(id: StepId, output: Str, now: int) returns (r: Option<CompleteResult>)
      modifies this`runs, this`steps, this`journal
      ensures Completes(old(Snap()), id, |StepsOf(old(steps), id.run)|, output, now, Snap(), r)
    {
      r := CompleteStepTx(id, |StepsOf(steps, id.run)|, output, now);
    }

    // Several completions in one transaction, with the step counts of its start;
    // a completion that fails rolls all of them back.
    method CompleteSteps(items: seq<Item>) returns (results: Option<seq<CompleteResult>>, ghost states: seq<Db>, ghost made: seq<CompleteResult>)
      modifies this
      ensures Chain(old(Snap()), items, Counts(old(Snap()), items), states, made)
      ensures results.Some? ==> made == results.value && |made| == |items| && Snap() == states[|items|]
      ensures results.None? ==> Snap() == old(Snap()) && |made| < |items| && items[|made|].id.run !in states[|made|].runs
    {
      var before := Snap();
      var counts := Counts(before, items);
      var done := [];
      states, made := [before], [];
      assert forall i | i in items :: i.id.run in counts;
      for i := 0 to |items|
        invariant |done| == i && |states| == i + 1 && made == done && Chain(before, items, counts, states, made)
        invariant Snap() == states[i]
      {
        var item := items[i];
        assert item in items;
        var r := CompleteStepTx(item.id, counts[item.id.run], item.output, item.now);
        if r.None? {
          Restore(before);
          return None, states, made;
        }
        ChainPush(before, items, counts, states, made, Snap(), r.value);
        done, made, states := done + [r.value], made + [r.value], states + [Snap()];
      }
      results := Some(done);
    }

    // ---- failure and cancellation -----------------------------------------------------------

    method FinalFailStep(id: StepId, error: Str, deadLetter: bool, now: int) returns (r: Option<CompleteResult>)
      modifies this`runs, this`steps, this`journal
      ensures Snap() == FinalFail(old(Snap()), id, error, deadLetter, now)
      ensures r.None? <==> id.run !in old(runs)
      ensures r.Some? ==> r.value == CompleteResult(true, {}, r.value.cancelled, true, Failed, error, Empty)
      ensures r.Some? ==> r.value.cancelled == SiblingNames(old(steps), id)
    {
      if id.run !in runs {
        return None;
      }
      var cancelled := FailRows(id, error);
      FailRun(id.run, error, deadLetter, now);
      if runs[id.run].ephemeral {
        DeleteRun(id.run);
      }
      r := Some(CompleteResult(true, {}, cancelled, true, Failed, error, Empty));
    }

    method FailRun(run: Str, error: Str, deadLetter: bool, now: int)
      requires run in runs
      modifies this`runs
      ensures runs == old(runs)[run := FailedRun(old(runs)[run], error, deadLetter, now)]
    {
      var r := runs[run];
      if !IsTerminal(r.status) {
        runs := runs[run := r.(status := Failed, error := error, completedAt := now, uniqueKey := Empty,
                               deadAt := if deadLetter && !r.ephemeral then now else r.deadAt)];
      }
    }

    // The failed step, and then its active siblings.
    method FailRows(id: StepId, error: Str) returns (cancelled: set<Str>)
      modifies this`steps
      ensures steps == map j | j in old(steps) ::
        if j.run == id.run then FailedStep(old(steps)[j], j == id, error) else old(steps)[j]
      ensures cancelled == SiblingNames(old(steps), id)
    {
      if id in steps {
        steps := steps[id := steps[id].(status := Failed, error := error)];
      }
      cancelled := SiblingNames(steps, id);
      steps := map j | j in steps ::
        if j.run == id.run && j != id && IsActive(steps[j].status) then steps[j].(status := Cancelled) else steps[j];
    }

    method CancelRow(run: Str, running: bool, now: int)
      modifies this`runs, this`steps
      ensures Snap() == Transitions.CancelRow(old(Snap()), run, running, now)
    {
      if run in runs {
        runs := runs[run := runs[run].(status := Cancelled, completedAt := now, uniqueKey := Empty)];
        steps := map j | j in steps ::
          if j.run == run && IsActive(steps[j].status) && (running || !steps[j].status.Running?)
          then steps[j].(status := Cancelled) else steps[j];
      }
    }

    method CancelOrDelete(run: Str, now: int)
      modifies this`runs, this`steps, this`journal
      ensures Snap() == Transitions.CancelOrDelete(old(Snap()), run, now)
    {
      if run in runs {
        if runs[run].ephemeral {
          DeleteRun(run);
        } else {
          CancelRow(run, false, now);
        }
      }
    }

    // ---- dead letters ------------------------------------------------------------------------

    method RetryDeadLetter(run: Str, now: int) returns (ok: bool)
      modifies this`runs, this`steps
      ensures Snap() == Transitions.RetryDeadLetter(old(Snap()), run, now)
      ensures ok <==> IsDeadLetter(old(Snap()), run)
    {
      if run !in runs || !runs[run].status.Failed? || runs[run].deadAt == 0 {
        return false;
      }
      var rows := ListRows(StepsOf(steps, run));
      for i := 0 to |rows|
        invariant steps.Keys == old(steps.Keys) && runs == old(runs)
        invariant forall k | 0 <= k < i :: steps[rows[k]] == ResetStep(old(steps)[rows[k]], now)
        invariant forall k | i <= k < |rows| :: steps[rows[k]] == old(steps)[rows[k]]
        invariant forall j | j in steps && j.run != run :: steps[j] == old(steps)[j]
      {
        var s := steps[rows[i]];
        var status := if |s.deps| > 0 then Blocked else Queued;
        steps := steps[rows[i] := s.(status := status, attempts := 0, error := Empty, output := Empty, startedAt := 0,
                                     claimedAt := 0, worker := Empty, lease := 0, resumeAt := 0, wait := NoWait, runAt := now)];
      }
      assert forall j | j in steps && j.run == run :: j in rows;
      runs := runs[run := runs[run].(status := Queued, attempts := 0, error := Empty, output := Empty,
                                     startedAt := 0, completedAt := 0, runAt := now, deadAt := 0)];
      return true;
    }

    // ---- boot ------------------------------------------------------------------------------------

    method DeleteAll(ids: set<Str>)
      modifies this`runs, this`steps, this`journal
      ensures Snap() == DeleteRuns(old(Snap()), ids)
    {
      var rest := ids;
      while rest != {}
        invariant rest <= ids && Snap() == DeleteRuns(old(Snap()), ids - rest)
      {
        var run :| run in rest;
        DeleteRun(run);
        rest := rest - {run};
      }
      assert ids - rest == ids;
    }

    method InterruptAll(now: int)
      modifies this`runs, this`steps, this`journal
      ensures Snap() == Transitions.InterruptAll(old(Snap()), now)
    {
      DeleteAll(set r | r in runs && runs[r].status.Running? && runs[r].ephemeral);
      steps := map j | j in steps :: if steps[j].status.Running? then steps[j].(status := Status.Interrupted) else steps[j];
      runs := map r | r in runs :: if runs[r].status.Running? then InterruptedRun(runs[r], now) else runs[r];
    }

    method InterruptWorker(worker: Str, now: int)
      modifies this`runs, this`steps, this`journal
      ensures Snap() == Transitions.InterruptWorker(old(Snap()), worker, now)
    {
      var mine := RunsOfWorker(Snap(), worker);
      DeleteAll(set r | r in mine && runs[r].ephemeral);
      steps := map j | j in steps ::
        if steps[j].status.Running? && steps[j].worker == worker
        then steps[j].(status := Status.Interrupted, worker := Empty, lease := 0) else steps[j];
      runs := map r | r in runs ::
        if r in mine && runs[r].status.Running? && !AnyActive(steps, r) then InterruptedRun(runs[r], now) else runs[r];
    }

    method RecoverInterrupted(keep: bool, reason: Str, now: int)
      modifies this`runs, this`steps, this`journal
      ensures Snap() == Recover(old(Snap()), keep, reason, now)
    {
      DeleteAll(set r | r in runs && runs[r].ephemeral);
      steps := map j | j in steps :: RecoveredStep(steps[j], keep, reason, now);
      runs := map r | r in runs :: RecoveredRun(runs[r], keep, reason, now);
    }

    // ---- the journal ----------------------------------------------------------------------------

    method SuspendWithJournal(id: StepId, idx: nat, e: Entry, wait: Wait, resumeAt: int) returns (ok: bool)
      modifies this`steps, this`journal
      ensures Snap() == Transitions.SuspendWithJournal(old(Snap()), id, idx, e, wait, resumeAt)
      ensures ok <==> IsRunning(old(Snap()), id) && idx == |Journal(old(Snap()), id)|
    {
      if id !in steps || !steps[id].status.Running? || idx != |Journal(Snap(), id)| {
        return false;
      }
      var rows := Journal(Snap(), id);
      steps := steps[id := steps[id].(status := Suspended, resumeAt := resumeAt, wait := wait)];
      journal := journal[id := rows + [e]];
      return true;
    }

    method AppendJournal(id: StepId, idx: nat, e: Entry) returns (ok: bool)
      modifies this`journal
      ensures Snap() == Transitions.AppendJournal(old(Snap()), id, idx, e)
      ensures ok <==> id in steps && idx == |Journal(old(Snap()), id)|
    {
      ok := id in steps && idx == |Journal(Snap(), id)|;
      if ok {
        journal := journal[id := Journal(Snap(), id) + [e]];
      }
    }

    method CompleteJournalOnce(id: StepId, idx: nat, result: Str)
      modifies this`journal
      ensures Snap() == CompleteOnce(old(Snap()), id, idx, result)
    {
      var rows := Journal(Snap(), id);
      if idx < |rows| {
        journal := journal[id := rows[idx := rows[idx].(done := true, result := result)]];
      }
    }

    method TimeoutWait(id: StepId, idx: nat) returns (won: bool)
      modifies this`journal
      ensures Snap() == Transitions.TimeoutWait(old(Snap()), id, idx)
      ensures won <==> TimeoutWins(old(Snap()), id, idx)
    {
      var rows := Journal(Snap(), id);
      won := idx < |rows| && !rows[idx].done;
      if won {
        journal := journal[id := rows[idx := rows[idx].(done := true, timedOut := true)]];
      }
    }

    // Every undone entry for the event is completed, one by one; then every step
    // one of them belongs to is woken.
    method DeliverEvent(event: Str, payload: Str)
      modifies this`steps, this`journal
      ensures Snap() == Transitions.DeliverEvent(old(Snap()), event, payload)
    {
      var rows := ListRows(Waiters(Snap(), event));
      AllDelivered(Snap(), rows, event, payload);
      AllWoken(Snap(), rows, event);
      var woken := CompleteWaits(rows, event, payload);
      steps := map j | j in steps :: if j in woken then WokenStep(steps[j]) else steps[j];
    }

    method CompleteWaits(rows: seq<WaitRow>, event: Str, payload: Str) returns (woken: set<StepId>)
      requires forall row | row in rows :: row.id in journal && row.idx < |journal[row.id]|
      modifies this`journal
      ensures journal == Delivered(old(journal), rows, event, payload)
      ensures woken == Owners(rows)
    {
      woken := {};
      for i := 0 to |rows|
        invariant journal == Delivered(old(journal), rows[..i], event, payload)
        invariant woken == Owners(rows[..i])
      {
        var id, idx := rows[i].id, rows[i].idx;
        Snoc(rows[..i + 1]);
        assert rows[..i + 1][..i] == rows[..i];
        OwnersPush(rows[..i], rows[i]);
        journal := journal[id := journal[id][idx := DeliverEntry(journal[id][idx], event, payload)]];
        woken := woken + {id};
      }
      assert rows[..|rows|] == rows;
    }

    // ---- enqueueing --------------------------------------------------------------------------------

    // Multi-row inserts of runs and their steps.
    method InsertRuns(batch: seq<NewRun>)
      modifies this`runs, this`steps
      ensures Snap() == InsertedAll(old(Snap()), batch)
    {
      assert batch[..0] == [];
      for i := 0 to |batch|
        invariant Snap() == InsertedAll(old(Snap()), batch[..i])
      {
        assert batch[..i + 1][..i] == batch[..i];
        var n := batch[i];
        steps := Inserted(Snap(), n).steps;
        runs := runs[n.id := n.run];
      }
      assert batch[..|batch|] == batch;
    }

    // The live runs of a key, oldest first.
    method ListContenders(key: Str, ghost taken: int) returns (cands: seq<Str>)
      requires key != Empty && Apart(runs, taken)
      ensures cands == BySeq(runs, Contenders(Snap(), key))
    {
      cands := [];
      var all := Contenders(Snap(), key);
      var rest := all;
      while rest != {}
        invariant rest <= all && Distinct(cands)
        invariant forall x :: x in cands <==> x in all && x !in rest
        invariant forall i | 0 <= i < |cands| :: cands[i] in all && cands[i] !in rest
        invariant forall i, j | 0 <= i < j < |cands| :: NoYounger(runs[cands[i]], runs[cands[j]])
        invariant forall i, x | 0 <= i < |cands| && x in rest :: NoYounger(runs[cands[i]], runs[x])
      {
        var r := OldestOf(rest);
        rest := rest - {r};
        cands := cands + [r];
      }
      OneOrder(runs, taken, all, cands);
    }

    method OldestOf(among: set<Str>) returns (oldest: Str)
      requires among != {} && forall x | x in among :: x in runs
      ensures oldest in among && forall x | x in among :: NoYounger(runs[oldest], runs[x])
    {
      oldest :| oldest in among;
      var rest := among - {oldest};
      while rest != {}
        invariant rest <= among && oldest in among
        invariant forall x | x in among && x !in rest :: NoYounger(runs[oldest], runs[x])
      {
        var x :| x in rest;
        rest := rest - {x};
        if !NoYounger(runs[oldest], runs[x]) {
          oldest := x;
        }
      }
    }

    // The contenders whose status a strategy is after, in order.
    method Select(cands: seq<Str>, p: Pick) returns (picked: seq<Str>)
      requires forall x | x in cands :: x in runs
      ensures picked == Picked(runs, cands, p)
    {
      picked := [];
      assert cands[..0] == [];
      for i := 0 to |cands|
        invariant picked == Picked(runs, cands[..i], p)
      {
        assert cands[..i + 1][..i] == cands[..i];
        if Picks(p, runs[cands[i]].status) {
          picked := picked + [cands[i]];
        }
      }
      assert cands[..|cands|] == cands;
    }

    method ChooseVictims(cands: seq<Str>, limit: int, strategy: Strategy) returns (victims: seq<Str>)
      requires limit > 0 && forall x | x in cands :: x in runs
      ensures victims == Victims(runs, cands, limit, strategy)
    {
      victims := [];
      if |cands| <= limit {
        return;
      }
      match strategy {
        case Hold =>
        case CancelNewest =>
          victims := [cands[|cands| - 1]];
        case CancelInProgress =>
          var running := Select(cands, IfRunning);
          var others := Select(cands, UnlessRunning);
          PickedSplit(runs, cands);
          victims := (running + others)[..|cands| - limit];
        case CancelQueuedExceptNewest =>
          var queued := Select(cands, IfQueued);
          if |queued| > limit {
            victims := queued[..|queued| - limit];
          }
        case CancelQueuedExceptOldest =>
          var queued := Select(cands, IfQueued);
          if |queued| > limit {
            victims := queued[limit..];
          }
      }
    }

    // After its run was inserted, a strategy cancels down to its limit.
    method ApplyStrategy(n: NewRun, now: int, ghost taken: int) returns (victims: seq<Str>)
      requires UsesStrategy(n) && n.run.key != Empty && Apart(runs, taken)
      modifies this`runs, this`steps, this`journal
      ensures victims == StrategyVictims(old(Snap()), n)
      ensures Snap() == CancelAll(old(Snap()), victims, now)
    {
      var cands := ListContenders(n.run.key, taken);
      victims := ChooseVictims(cands, n.policy.limit, n.policy.strategy);
      assert victims[..0] == [];
      for i := 0 to |victims|
        invariant Snap() == CancelAll(old(Snap()), victims[..i], now)
      {
        assert victims[..i + 1][..i] == victims[..i];
        CancelOrDelete(victims[i], now);
      }
      assert victims[..|victims|] == victims;
    }

    // One run, resolved against the rows as they are and inserted on its own.
    method ResolveRun(n: NewRun, now: int, ghost taken: int) returns (r: Resolved)
      requires UniqueInv(Snap()) && Apart(runs, taken) && Fresh(n, taken) && n.policy.key == n.run.key
      modifies this`runs, this`steps, this`journal
      ensures Resolve(old(Snap()), n, now) == OutcomeOf(r, Snap())
    {
      var replaced := [];
      if n.run.uniqueKey != Empty {
        var holders := UniqueHolders(Snap(), n.run.workflow, n.run.uniqueKey);
        if holders != {} {
          var existing :| existing in holders;
          assert existing == Holder(holders);
          match n.conflict {
            case Reuse =>
              return One(existing, []);
            case Error =>
              return No(DuplicateJob);
            case Replace =>
              CancelRowSteady(Snap(), existing, true, now);
              QuietApart(Snap(), Transitions.CancelRow(Snap(), existing, true, now), taken);
              CancelRow(existing, true, now);
              replaced := [existing];
          }
        }
      }
      r := InsertOneRun(n, replaced, now, taken);
    }

    // The insert, which the unique index may refuse, and the run's strategy.
    method InsertOneRun(n: NewRun, replaced: seq<Str>, now: int, ghost taken: int) returns (r: Resolved)
      requires Apart(runs, taken) && Fresh(n, taken) && n.policy.key == n.run.key
      modifies this`runs, this`steps, this`journal
      ensures InsertOne(old(Snap()), n, replaced, now) == OutcomeOf(r, Snap())
    {
      if n.run.uniqueKey != Empty && Collides(Snap(), n) {
        return No(UniqueViolation);
      }
      InsertApart(Snap(), n, taken);
      InsertRun(n);
      var victims := [];
      if UsesStrategy(n) {
        victims := ApplyStrategy(n, now, taken + 1);
      }
      return One(n.id, replaced + victims);
    }

    method InsertRun(n: NewRun)
      modifies this`runs, this`steps
      ensures Snap() == Inserted(old(Snap()), n)
    {
      InsertRuns([n]);
      assert [n][..0] == [];
    }

    // createRunsUniqueTx: numbers are reserved for the whole batch up front, plain
    // runs wait in `pending`, and a run that must see the rows flushes them first.
    // A run that must be resolved at once: the deferred inserts go first.
    method FlushAndResolve(ghost before: Db, ghost ns: seq<NewRun>, n: NewRun, now: int, pending: seq<NewRun>, ghost taken: int,
                           ghost ids: seq<Str>, ghost replaced: seq<Str>) returns (r: Resolved)
      requires ns != [] && Prepared(ns[|ns| - 1]) && Immediate(ns[|ns| - 1])
      requires n == Stamped(ns[|ns| - 1], Next(ns[|ns| - 1], taken))
      requires Midway(before, ns[..|ns| - 1], now, Snap(), pending, taken, ids, replaced)
      modifies this`runs, this`steps, this`journal
      ensures r.No? ==> EnqueueAll(before, ns, now) == NoneDone(r.failure)
      ensures r.One? ==>
        Midway(before, ns, now, Snap(), [], Next(ns[|ns| - 1], taken), ids + [r.id], replaced + r.replaced)
    {
      StampedFresh(ns[|ns| - 1], taken);
      InsertRuns(pending);
      ImmediateMidway(before, ns, now, Snap(), taken, ids, replaced);
      r := ResolveRun(n, now, taken);
    }

    method CreateRuns(ns: seq<NewRun>, now: int) returns (r: Created)
      requires UniqueInv(Snap()) && Apart(runs, next) && forall n | n in ns :: Prepared(n)
      modifies this
      ensures match EnqueueAll(old(Snap()), ns, now)
        case NoneDone(f) => r == Refused(f) && Snap() == old(Snap())
        case AllDone(db, ids, replaced) => r == Accepted(ids, replaced) && Snap() == db
    {
      var before := Snap();
      var taken := next;
      var reserved := CountSequenced(ns);
      next := next + reserved;
      var ids, replaced, pending := [], [], [];
      Start(before, Snap(), now);
      for i := 0 to |ns|
        invariant Midway(before, ns[..i], now, Snap(), pending, taken, ids, replaced)
        invariant taken == before.next + SequencedCount(ns[..i]) && next == before.next + reserved
      {
        CountPush(ns, i);
        assert ns[i] in ns;
        ghost var was := taken;
        var n := ns[i];
        if Sequenced(n) {
          taken := taken + 1;
          n := Stamped(n, taken);
        }
        assert taken == Next(ns[i], was) && n == Stamped(ns[i], taken);
        StampedFresh(ns[i], was);
        if Immediate(n) {
          var res := FlushAndResolve(before, ns[..i + 1], n, now, pending, was, ids, replaced);
          pending := [];
          if res.No? {
            StaysFailed(before, ns, i + 1, now);
            Restore(before);
            return Refused(res.failure);
          }
          ids, replaced := ids + [res.id], replaced + res.replaced;
        } else {
          PlainMidway(before, ns[..i + 1], now, Snap(), pending, was, ids, replaced);
          pending, ids := pending + [n], ids + [ns[i].id];
        }
      }
      assert ns[..|ns|] == ns;
      Batching.Finish(before, ns, now, Snap(), pending, taken, ids, replaced);
      InsertRuns(pending);
      return Accepted(ids, replaced);
    }

    // ---- guarded updates of one row or one run -----------------------------------------------

    method RetryStep(id: StepId, error: Str, nextRunAt: int)
      modifies this`steps
      ensures Snap() == Transitions.RetryStep(old(Snap()), id, error, nextRunAt)
    {
      if id in steps && steps[id].status.Running? {
        steps := steps[id := steps[id].(status := Queued, error := error, runAt := nextRunAt)];
      }
    }

    method ParkStep(id: StepId, error: Str, nextRunAt: int)
      modifies this`steps
      ensures Snap() == Transitions.ParkStep(old(Snap()), id, error, nextRunAt)
    {
      if id in steps && steps[id].status.Running? {
        var attempts := steps[id].attempts;
        if attempts > 0 {
          attempts := attempts - 1;
        }
        steps := steps[id := steps[id].(status := Queued, error := error, runAt := nextRunAt, claimedAt := 0, attempts := attempts)];
      }
    }

    method RequeuePausedStep(id: StepId)
      modifies this`steps
      ensures Snap() == Transitions.RequeuePausedStep(old(Snap()), id)
    {
      if id in steps && steps[id].status.Running? {
        var attempts := steps[id].attempts;
        if attempts > 0 {
          attempts := attempts - 1;
        }
        steps := steps[id := steps[id].(status := Queued, claimedAt := 0, worker := Empty, lease := 0, attempts := attempts)];
      }
    }

    method StepCancelled(id: StepId)
      modifies this`steps
      ensures Snap() == Transitions.StepCancelled(old(Snap()), id)
    {
      if id in steps && (steps[id].status.Queued? || steps[id].status.Running? || steps[id].status.Suspended?) {
        steps := steps[id := steps[id].(status := Cancelled, resumeAt := 0, wait := NoWait)];
      }
    }

    method SuspendStep(id: StepId, wait: Wait, resumeAt: int) returns (ok: bool)
      modifies this`steps
      ensures Snap() == Transitions.SuspendStep(old(Snap()), id, wait, resumeAt)
      ensures ok <==> IsRunning(old(Snap()), id)
    {
      ok := id in steps && steps[id].status.Running?;
      if ok {
        steps := steps[id := steps[id].(status := Suspended, resumeAt := resumeAt, wait := wait)];
      }
    }

    method CancelRun(run: Str, now: int) returns (ok: bool)
      modifies this`runs, this`steps, this`journal
      ensures Snap() == Transitions.CancelRun(old(Snap()), run, now)
      ensures ok <==> Live(old(Snap()), run)
    {
      if run !in runs || IsTerminal(runs[run].status) {
        return false;
      }
      CancelOrDelete(run, now);
      return true;
    }

    method PauseRun(run: Str, now: int) returns (changed: bool)
      modifies this`runs
      ensures Snap() == Transitions.PauseRun(old(Snap()), run, now)
      ensures changed <==> Live(old(Snap()), run) && !old(runs)[run].status.Paused?
    {
      if run !in runs || IsTerminal(runs[run].status) || runs[run].status.Paused? {
        return false;
      }
      runs := runs[run := runs[run].(status := Paused, pausedAt := now)];
      return true;
    }

    method ResumeRun(run: Str, now: int) returns (changed: bool)
      modifies this`runs, this`steps
      ensures Snap() == Transitions.ResumeRun(old(Snap()), run, now)
      ensures changed <==> Live(old(Snap()), run) && old(runs)[run].status.Paused?
    {
      if run !in runs || !runs[run].status.Paused? {
        return false;
      }
      steps := QueuedAt(steps, run, now);
      runs := runs[run := runs[run].(status := Queued, runAt := now, pausedAt := 0)];
      return true;
    }

    method Snooze(run: Str, until: int) returns (changed: bool)
      modifies this`runs, this`steps
      ensures Snap() == Transitions.Snooze(old(Snap()), run, until)
      ensures changed <==> Live(old(Snap()), run) && !AnyRunning(old(steps), run)
    {
      if run !in runs || IsTerminal(runs[run].status) || AnyRunning(steps, run) {
        return false;
      }
      steps := QueuedAt(steps, run, until);
      runs := runs[run := runs[run].(runAt := until)];
      return true;
    }

    method DismissDeadLetter(run: Str) returns (changed: bool)
      modifies this`runs
      ensures Snap() == Transitions.DismissDeadLetter(old(Snap()), run)
      ensures changed <==> run in old(runs) && old(runs)[run].deadAt > 0
    {
      changed := run in runs && runs[run].deadAt > 0;
      if changed {
        runs := runs[run := runs[run].(deadAt := 0)];
      }
    }

    method PauseQueue(queue: Str)
      modifies this`pausedQueues
      ensures Snap() == Apply(old(Snap()), QueuePaused(queue, 0))
    {
      pausedQueues := pausedQueues + {queue};
    }

    method ResumeQueue(queue: Str)
      modifies this`pausedQueues
      ensures Snap() == Apply(old(Snap()), QueueResumed(queue, 0))
    {
      pausedQueues := pausedQueues - {queue};
    }

    method HeartbeatWorker(worker: Str, until: int)
      modifies this`steps
      ensures Snap() == Heartbeat(old(Snap()), worker, until)
    {
      steps := map j | j in steps ::
        if steps[j].worker == worker && steps[j].status.Running? then steps[j].(lease := until) else steps[j];
    }

    // Up to `limit` RUNNING steps whose lease ran out go back to the queue.
    method ReapExpired(now: int, limit: int) returns (ghost ids: set<StepId>, n: int)
      modifies this`steps
      ensures Snap() == Reap(old(Snap()), ids, now)
      ensures n == |ids| <= (if limit <= 0 then 100 else limit)
      ensures forall id | id in ids :: Expired(old(Snap()), id, now)
      ensures n < (if limit <= 0 then 100 else limit) ==> forall id | Expired(old(Snap()), id, now) :: id in ids
    {
      var most := if limit <= 0 then 100 else limit;
      var expired := set id | id in steps && Expired(Snap(), id, now);
      var picked := UpTo(expired, most);
      steps := map j | j in steps ::
        if j in picked then steps[j].(status := Queued, runAt := now, worker := Empty, lease := 0) else steps[j];
      ids, n := picked, |picked|;
      assert forall id | Expired(old(Snap()), id, now) :: id in expired;
    }
  }

  datatype Resolved = One(id: Str, replaced: seq<Str>) | No(failure: Failure)

  function OutcomeOf(r: Resolved, db: Db): Outcome {
    match r
    case One(id, replaced) => Enqueued(db, id, replaced)
    case No(failure) => Rejected(failure)
  }

  datatype Created = Accepted(ids: seq<Str>, replaced: seq<Str>) | Refused(failure: Failure)

  function SequencedCount(ns: seq<NewRun>): nat {
    if ns == [] then 0 else SequencedCount(ns[..|ns| - 1]) + if Sequenced(ns[|ns| - 1]) then 1 else 0
  }

  lemma CountPush(ns: seq<NewRun>, i: nat)
    requires i < |ns|
    ensures ns[..i + 1] != [] && ns[..i + 1][..i] == ns[..i] && ns[..i + 1][i] == ns[i]
    ensures SequencedCount(ns[..i + 1]) == SequencedCount(ns[..i]) + if Sequenced(ns[i]) then 1 else 0
  {
    assert ns[..i + 1][..i] == ns[..i];
  }

  method CountSequenced(ns: seq<NewRun>) returns (count: nat)
    ensures count == SequencedCount(ns)
  {
    count := 0;
    assert ns[..0] == [];
    for i := 0 to |ns|
      invariant count == SequencedCount(ns[..i])
    {
      assert ns[..i + 1][..i] == ns[..i];
      if Sequenced(ns[i]) {
        count := count + 1;
      }
    }
    assert ns[..|ns|] == ns;
  }

  // A row of the delivery's candidate query.
  datatype WaitRow = WaitRow(id: StepId, idx: nat)

  function Waiters(db: Db, event: Str): set<WaitRow> {
    set id, i | id in db.journal && 0 <= i < |db.journal[id]| && Reachable(db, id) && Awaits(db.journal[id][i], event) :: WaitRow(id, i)
  }

  function Owners(rows: seq<WaitRow>): set<StepId> {
    set row | row in rows :: row.id
  }

  lemma OwnersPush(rows: seq<WaitRow>, row: WaitRow)
    ensures Owners(rows + [row]) == Owners(rows) + {row.id}
  {
    assert forall r :: r in rows + [row] <==> r in rows || r == row;
    forall id | id in Owners(rows) + {row.id} ensures id in Owners(rows + [row]) {
      if id == row.id {
        assert row in rows + [row];
      } else {
        var r :| r in rows && r.id == id;
        assert r in rows + [row];
      }
    }
  }

  // The journal after some entries were completed.
  function Delivered(journal: map<StepId, seq<Entry>>, rows: seq<WaitRow>, event: Str, payload: Str): (r: map<StepId, seq<Entry>>)
    ensures r.Keys == journal.Keys && forall id | id in journal :: |r[id]| == |journal[id]|
    decreases |rows|
  {
    if rows == [] then journal
    else
      var front := Delivered(journal, rows[..|rows| - 1], event, payload);
      var row := rows[|rows| - 1];
      if row.id in front && row.idx < |front[row.id]| then
        front[row.id := front[row.id][row.idx := DeliverEntry(front[row.id][row.idx], event, payload)]]
      else front
  }

  lemma {:induction false} DeliveredEntry(journal: map<StepId, seq<Entry>>, rows: seq<WaitRow>, event: Str, payload: Str, id: StepId, i: nat)
    requires id in journal && i < |journal[id]|
    ensures Delivered(journal, rows, event, payload)[id][i] ==
      if WaitRow(id, i) in rows then DeliverEntry(journal[id][i], event, payload) else journal[id][i]
    decreases |rows|
  {
    if rows != [] {
      var front, row := rows[..|rows| - 1], rows[|rows| - 1];
      DeliveredEntry(journal, front, event, payload, id, i);
      Snoc(rows);
      assert WaitRow(id, i) in rows <==> WaitRow(id, i) in front || WaitRow(id, i) == row;
    }
  }

  lemma DeliveredRow(db: Db, rows: seq<WaitRow>, event: Str, payload: Str, id: StepId, i: nat)
    requires Lists(rows, Waiters(db, event)) && id in db.journal && i < |db.journal[id]|
    ensures Delivered(db.journal, rows, event, payload)[id][i] == Transitions.DeliverEvent(db, event, payload).journal[id][i]
  {
    DeliveredEntry(db.journal, rows, event, payload, id, i);
    assert WaitRow(id, i) in rows <==> WaitRow(id, i) in Waiters(db, event);
  }

  lemma AllDelivered(db: Db, rows: seq<WaitRow>, event: Str, payload: Str)
    requires Lists(rows, Waiters(db, event))
    ensures Delivered(db.journal, rows, event, payload) == Transitions.DeliverEvent(db, event, payload).journal
    ensures forall row | row in rows :: row.id in db.journal && row.idx < |db.journal[row.id]|
  {
    var j1, j2 := Delivered(db.journal, rows, event, payload), Transitions.DeliverEvent(db, event, payload).journal;
    forall id | id in db.journal ensures j1[id] == j2[id] {
      assert |j1[id]| == |j2[id]|;
      forall i | 0 <= i < |j1[id]| ensures j1[id][i] == j2[id][i] {
        DeliveredRow(db, rows, event, payload, id, i);
      }
    }
  }

  lemma AllWoken(db: Db, rows: seq<WaitRow>, event: Str)
    requires Lists(rows, Waiters(db, event))
    ensures forall id | id in db.steps :: Woken(db, id, event) <==> id in Owners(rows)
  {
    forall id | id in db.steps ensures Woken(db, id, event) <==> id in Owners(rows) {
      if Woken(db, id, event) {
        var i :| 0 <= i < |Journal(db, id)| && Awaits(Journal(db, id)[i], event);
        assert id in db.journal && Reachable(db, id);
        assert WaitRow(id, i) in Waiters(db, event);
        assert WaitRow(id, i) in rows && WaitRow(id, i).id == id;
      }
      if id in Owners(rows) {
        var row :| row in rows && row.id == id;
        assert row in Waiters(db, event);
        assert Awaits(Journal(db, id)[row.idx], event);
      }
    }
  }

  // The other steps of a run that a failure cancels.
  function SiblingNames(steps: map<StepId, Step>, id: StepId): set<Str> {
    set j | j in steps && j.run == id.run && j != id && IsActive(steps[j].status) :: j.name
  }

  function Dependents(steps: map<StepId, Step>, run: Str, name: Str): set<StepId> {
    set id | id in steps && id.run == run && steps[id].status.Blocked? && name in steps[id].deps
  }

  function SucceededNames(steps: map<StepId, Step>, run: Str): set<Str> {
    set id | id in steps && id.run == run && steps[id].status.Succeeded? :: id.name
  }

  function WakeRows(steps: map<StepId, Step>, ids: set<StepId>, now: int): map<StepId, Step> {
    map id | id in steps :: if id in ids then steps[id].(status := Queued, runAt := now) else steps[id]
  }

  lemma SucceededDeps(steps: map<StepId, Step>, id: StepId)
    requires id in steps
    ensures DepsSucceeded(steps, id) <==> forall d | d in steps[id].deps :: d in SucceededNames(steps, id.run)
  {
    forall d
      ensures d in SucceededNames(steps, id.run) <==> StepId(id.run, d) in steps && steps[StepId(id.run, d)].status.Succeeded?
    {
      if d in SucceededNames(steps, id.run) {
        var j :| j in steps && j.run == id.run && steps[j].status.Succeeded? && j.name == d;
        assert j == StepId(id.run, d);
      }
    }
  }

  lemma SameLimit(db: Db, q: QueueClaim, cands: seq<Candidate>, limit: int, limit1: int, now: int, labels: set<Str>)
    requires IsAnswer(db, q, cands, limit, now, labels) && NoLess(limit) == NoLess(limit1)
    ensures IsAnswer(db, q, cands, limit1, now, labels)
  {
  }

  lemma WokenRows(steps: map<StepId, Step>, run: Str, name: Str, woken: set<StepId>, now: int)
    requires woken == set id | id in Dependents(steps, run, name) && DepsSucceeded(steps, id)
    ensures (set id | id in woken :: id.name) == Unblocked(steps, run, name)
    ensures WakeRows(steps, woken, now) == QueueSteps(steps, run, Unblocked(steps, run, name), now)
  {
    forall id | id in steps && id.run == run && id.name in Unblocked(steps, run, name) ensures id in woken {
      var j :| j in Dependents(steps, run, name) && DepsSucceeded(steps, j) && j.name == id.name;
      assert j == id;
    }
  }
}
