// Completion: the one-step fast path and the batch with step counts taken up
// front give what the general path and one completion at a time give.

module Completion {
  import opened Names
  import opened Schema
  import opened Transitions
  import opened Machine
  import opened Progress
  import opened Disruptions
  import opened Outcomes

  // ---- the fast path -----------------------------------------------------------------

  lemma AloneNothingToUnblock(db: Db, id: StepId, output: Str, now: int)
    requires id in db.steps && |StepsOf(db.steps, id.run)| == 1
    ensures var db1 := db.(steps := SucceedStep(db.steps, id, output));
      Unblocked(db1.steps, id.run, id.name) == {} && AfterUnblock(db1, id.run, id.name, now) == db1
  {
    OnlyStep(db.steps, id);
    var db1 := db.(steps := SucceedStep(db.steps, id, output));
    assert Unblocked(db1.steps, id.run, id.name) == {};
    assert QueueSteps(db1.steps, id.run, {}, now) == db1.steps;
  }

  lemma AloneLastOutput(db: Db, id: StepId, output: Str)
    requires id in db.steps && |StepsOf(db.steps, id.run)| == 1
    ensures var steps := SucceedStep(db.steps, id, output);
      !AnyActive(steps, id.run) && !AnyFailed(steps, id.run) && LastOutput(steps, id.run) == output
  {
    OnlyStep(db.steps, id);
    var steps := SucceedStep(db.steps, id, output);
    assert IsLast(steps, id);
  }

  // For a run of one step, skipping the dependency queries changes neither the
  // database nor the result.
  lemma FastPath(db: Db, id: StepId, count: int, output: Str, now: int)
    requires |StepsOf(db.steps, id.run)| == 1
    ensures Complete(db, id, 1, output, now) == Complete(db, id, count, output, now)
  {
    if Accepts(db, id) {
      AloneNothingToUnblock(db, id, output, now);
      AloneLastOutput(db, id, output);
    }
  }

  // ---- batches -------------------------------------------------------------------------

  datatype Item = Item(id: StepId, output: Str, now: int)

  datatype Batch = Committed(db: Db, results: seq<CompleteResult>) | RolledBack

  function Counts(db: Db, items: seq<Item>): map<Str, int> {
    map i | i in items :: i.id.run := |StepsOf(db.steps, i.id.run)|
  }

  // CompleteSteps: every completion in order, with the counts of the start.
  ghost function CompleteBatch(db: Db, items: seq<Item>, counts: map<Str, int>): Batch
    requires forall i | i in items :: i.id.run in counts
    decreases |items|
  {
    if items == [] then Committed(db, [])
    else
      var last := items[|items| - 1];
      match CompleteBatch(db, items[..|items| - 1], counts)
      case RolledBack => RolledBack
      case Committed(db1, results) =>
        match Complete(db1, last.id, counts[last.id.run], last.output, last.now)
        case None => RolledBack
        case Some(r) => Committed(r.0, results + [r.1])
  }

  // One transaction each.
  ghost function CompleteEach(db: Db, items: seq<Item>): Batch
    decreases |items|
  {
    if items == [] then Committed(db, [])
    else
      var last := items[|items| - 1];
      match CompleteEach(db, items[..|items| - 1])
      case RolledBack => RolledBack
      case Committed(db1, results) =>
        match CompleteStep(db1, last.id, last.output, last.now)
        case None => RolledBack
        case Some(r) => Committed(r.0, results + [r.1])
  }

  // Runs that are still there have the steps they had.
  ghost predicate SameRuns(db: Db, db1: Db) {
    && db1.runs.Keys <= db.runs.Keys
    && forall r | r in db1.runs :: StepsOf(db1.steps, r) == StepsOf(db.steps, r)
  }

  lemma FinishSameRuns(db: Db, run: Str, status: Status, output: Str, error: Str, now: int)
    requires run in db.runs
    ensures SameRuns(db, FinishRun(db, run, status, output, error, now))
  {
  }

  lemma CompleteSameRuns(db: Db, id: StepId, count: int, output: Str, now: int)
    requires Complete(db, id, count, output, now).Some?
    ensures SameRuns(db, Complete(db, id, count, output, now).value.0)
  {
    if Accepts(db, id) {
      var db1 := db.(steps := SucceedStep(db.steps, id, output));
      var db2 := AfterUnblock(db1, id.run, id.name, now);
      assert SameRuns(db, db1) && SameRuns(db, db2);
      FinishSameRuns(db1, id.run, Succeeded, output, Empty, now);
      if !AnyActive(db2.steps, id.run) {
        var failed := AnyFailed(db2.steps, id.run);
        FinishSameRuns(db2, id.run, if failed then Failed else Succeeded, LastOutput(db2.steps, id.run),
                       if failed then FailedError(db2.steps, id.run) else Empty, now);
      }
    }
  }

  lemma {:induction false} EachSameRuns(db: Db, items: seq<Item>)
    requires CompleteEach(db, items).Committed?
    ensures SameRuns(db, CompleteEach(db, items).db)
    decreases |items|
  {
    if items != [] {
      var last, mid := items[|items| - 1], CompleteEach(db, items[..|items| - 1]);
      EachSameRuns(db, items[..|items| - 1]);
      CompleteSameRuns(mid.db, last.id, |StepsOf(mid.db.steps, last.id.run)|, last.output, last.now);
    }
  }

  lemma {:induction false} BatchPrefix(db: Db, items: seq<Item>, counts: map<Str, int>)
    requires forall i | i in items :: i.id.run in counts && counts[i.id.run] == |StepsOf(db.steps, i.id.run)|
    ensures CompleteBatch(db, items, counts) == CompleteEach(db, items)
    decreases |items|
  {
    if items != [] {
      var front, last := items[..|items| - 1], items[|items| - 1];
      BatchPrefix(db, front, counts);
      if CompleteEach(db, front).Committed? {
        var mid := CompleteEach(db, front).db;
        EachSameRuns(db, front);
        assert last.id.run in mid.runs ==> StepsOf(mid.steps, last.id.run) == StepsOf(db.steps, last.id.run);
      }
    }
  }

  // A batch commits exactly when its completions one at a time all do, and then
  // leaves the same database and the same results.
  lemma BatchIsEach(db: Db, items: seq<Item>)
    ensures CompleteBatch(db, items, Counts(db, items)) == CompleteEach(db, items)
  {
    BatchPrefix(db, items, Counts(db, items));
  }

  // ---- what the queries leave open -----------------------------------------------------

  // What a completion that ends its run may report, whichever rows its unordered
  // queries pick.
  ghost predicate Concludes(db: Db, run: Str, ready: set<Str>, now: int, db1: Db, r: CompleteResult)
    requires run in db.runs
  {
    if AnyActive(db.steps, run) then
      db1 == db && r == CompleteResult(true, ready, {}, false, Running, Empty, Empty)
    else
      var status := if AnyFailed(db.steps, run) then Failed else Succeeded;
      && MayReport(db.steps, run, r.runOutput, r.runError)
      && r == CompleteResult(true, ready, {}, true, status, r.runError, r.runOutput)
      && db1 == FinishRun(db, run, status, r.runOutput, r.runError, now)
  }

  ghost predicate Completes(db: Db, id: StepId, count: int, output: Str, now: int, db1: Db, r: Option<CompleteResult>) {
    if !Accepts(db, id) || count == 1 then
      match Complete(db, id, count, output, now)
      case None => db1 == db && r.None?
      case Some(x) => db1 == x.0 && r == Some(x.1)
    else
      var mid := db.(steps := SucceedStep(db.steps, id, output));
      r.Some? && Concludes(AfterUnblock(mid, id.run, id.name, now), id.run, Unblocked(mid.steps, id.run, id.name), now, db1, r.value)
  }

  // In a run whose steps have distinct orders and of which none has failed, the
  // queries leave nothing open.
  lemma ConcludesIsConclude(db: Db, run: Str, ready: set<Str>, now: int, db1: Db, r: CompleteResult)
    requires run in db.runs && RunShaped(db, run) && !AnyFailed(db.steps, run)
    ensures Concludes(db, run, ready, now, db1, r) <==> (db1, r) == Conclude(db, run, ready, now)
  {
    if !AnyActive(db.steps, run) {
      var id :| id in db.steps && id.run == run;
      assert id in StepsOf(db.steps, run);
      var last := LastExists(db.steps, run, StepsOf(db.steps, run));
      forall j | j in db.steps && j.run == last.run ensures db.steps[j].ord <= db.steps[last].ord {
        assert j in StepsOf(db.steps, run);
      }
      assert IsLast(db.steps, last);
      forall other: StepId | other.run == run && IsLast(db.steps, other) ensures other == last {
        assert db.steps[other].ord == db.steps[last].ord;
      }
    }
  }

  // Runs as operations leave them, on their way or interrupted while they are live.
  ghost predicate Healthy(db: Db) {
    Rows(db) && forall run | run in db.runs :: RunShaped(db, run) && Moving(db, run)
  }

  // In every such state a completion has one outcome.
  lemma CompletesIsComplete(db: Db, id: StepId, count: int, output: Str, now: int, db1: Db, r: CompleteResult)
    requires Healthy(db) && Completes(db, id, count, output, now, db1, Some(r))
    ensures Complete(db, id, count, output, now) == Some((db1, r))
  {
    if Accepts(db, id) && count != 1 {
      var mid := db.(steps := SucceedStep(db.steps, id, output));
      var db2 := AfterUnblock(mid, id.run, id.name, now);
      assert Succeeds(db, mid, id);
      UnblockOnward(db, mid, id, now);
      UnblockMoves(db, mid, id, now);
      NoneFailed(db2, id.run);
      ConcludesIsConclude(db2, id.run, Unblocked(mid.steps, id.run, id.name), now, db1, r);
    }
  }

  lemma CarriesHealthy(db: Db, db1: Db)
    requires Healthy(db) && Carries(db, db1)
    ensures Healthy(db1)
  {
    forall run | run in db1.runs ensures RunShaped(db1, run) && Moving(db1, run) {
      assert Carried(db, db1, run);
    }
  }

  // And every history whose boots mend its runs leaves one.
  lemma HealthyAlways(ops: seq<Op>)
    requires Legal(ops) && forall run | run in Exec(ops).runs :: Mended(ops, run)
    ensures Healthy(Exec(ops))
  {
    RowsAlways(ops);
    forall run | run in Exec(ops).runs ensures RunShaped(Exec(ops), run) && Moving(Exec(ops), run) {
      ShapedAlways(ops, run);
      MovesThroughout(ops, run);
    }
  }

  lemma NoneFailed(db: Db, run: Str)
    requires forall j | j in db.steps && j.run == run :: OnItsWay(db, j)
    ensures !AnyFailed(db.steps, run)
  {
  }

  // A batch as a chain of states; it stops at the first completion without a run.
  ghost predicate Chain(db: Db, items: seq<Item>, counts: map<Str, int>, states: seq<Db>, results: seq<CompleteResult>)
    requires forall i | i in items :: i.id.run in counts
    decreases |results|
  {
    var n := |results|;
    && n <= |items| && |states| == n + 1
    && if n == 0 then states[0] == db
       else
         var i := items[n - 1];
         && Chain(db, items, counts, states[..n], results[..n - 1])
         && Completes(states[n - 1], i.id, counts[i.id.run], i.output, i.now, states[n], Some(results[n - 1]))
  }

  lemma ChainPush(db: Db, items: seq<Item>, counts: map<Str, int>, states: seq<Db>, results: seq<CompleteResult>, db1: Db, r: CompleteResult)
    requires (forall i | i in items :: i.id.run in counts) && Chain(db, items, counts, states, results) && |results| < |items|
    requires var i := items[|results|]; Completes(states[|results|], i.id, counts[i.id.run], i.output, i.now, db1, Some(r))
    ensures Chain(db, items, counts, states + [db1], results + [r])
  {
    assert (states + [db1])[..|states|] == states && (results + [r])[..|results|] == results;
  }

  lemma Front<T>(s: seq<T>, n: nat)
    requires 0 < n <= |s|
    ensures s[..n][..n - 1] == s[..n - 1]
  {
  }

  lemma Snoc<T>(s: seq<T>)
    requires s != []
    ensures s == s[..|s| - 1] + [s[|s| - 1]]
  {
  }

  lemma OneMore(db: Db, items: seq<Item>, counts: map<Str, int>, mid: Db, results: seq<CompleteResult>, db1: Db, r: CompleteResult)
    requires items != [] && forall i | i in items :: i.id.run in counts
    requires CompleteBatch(db, items[..|items| - 1], counts) == Committed(mid, results)
    requires var i := items[|items| - 1]; Complete(mid, i.id, counts[i.id.run], i.output, i.now) == Some((db1, r))
    ensures CompleteBatch(db, items, counts) == Committed(db1, results + [r])
  {
  }

  lemma CompletesKeeps(db: Db, id: StepId, count: int, output: Str, now: int, db1: Db, r: CompleteResult)
    requires Healthy(db) && Completes(db, id, count, output, now, db1, Some(r))
    ensures Complete(db, id, count, output, now) == Some((db1, r)) && Healthy(db1)
  {
    CompletesIsComplete(db, id, count, output, now, db1, r);
    CompleteCarries(db, id, count, output, now);
    CarriesHealthy(db, db1);
  }

  lemma ChainTail(db: Db, items: seq<Item>, n: nat, counts: map<Str, int>, mid: Db, results: seq<CompleteResult>, db1: Db, r: CompleteResult)
    requires 0 < n <= |items| && forall i | i in items :: i.id.run in counts
    requires CompleteBatch(db, items[..n - 1], counts) == Committed(mid, results) && Healthy(mid)
    requires var i := items[n - 1]; Completes(mid, i.id, counts[i.id.run], i.output, i.now, db1, Some(r))
    ensures CompleteBatch(db, items[..n], counts) == Committed(db1, results + [r]) && Healthy(db1)
  {
    var i := items[n - 1];
    CompletesKeeps(mid, i.id, counts[i.id.run], i.output, i.now, db1, r);
    Front(items, n);
    OneMore(db, items[..n], counts, mid, results, db1, r);
  }

  lemma ChainPop(db: Db, items: seq<Item>, counts: map<Str, int>, states: seq<Db>, results: seq<CompleteResult>, n: nat)
    requires (forall i | i in items :: i.id.run in counts) && n == |results| > 0 && Chain(db, items, counts, states, results)
    ensures n <= |items| && |states| == n + 1 && Chain(db, items, counts, states[..n], results[..n - 1])
    ensures var i := items[n - 1]; Completes(states[n - 1], i.id, counts[i.id.run], i.output, i.now, states[n], Some(results[n - 1]))
  {
  }

  lemma {:induction false} ChainIsBatch(db: Db, items: seq<Item>, counts: map<Str, int>, states: seq<Db>, results: seq<CompleteResult>)
    requires forall i | i in items :: i.id.run in counts
    requires Chain(db, items, counts, states, results) && Healthy(db)
    ensures CompleteBatch(db, items[..|results|], counts) == Committed(states[|results|], results)
    ensures Healthy(states[|results|])
    decreases |results|
  {
    if results != [] {
      var n := |results|;
      ChainPop(db, items, counts, states, results, n);
      ChainIsBatch(db, items, counts, states[..n], results[..n - 1]);
      ChainTail(db, items, n, counts, states[n - 1], results[..n - 1], states[n], results[n - 1]);
      Snoc(results);
    }
  }

  // In every such state a committed batch is what its
  // completions do one transaction at a time.
  lemma ChainIsEach(db: Db, items: seq<Item>, states: seq<Db>, results: seq<CompleteResult>)
    requires Chain(db, items, Counts(db, items), states, results) && Healthy(db)
    ensures |results| == |items| ==> CompleteEach(db, items) == Committed(states[|items|], results)
  {
    if |results| == |items| {
      ChainIsBatch(db, items, Counts(db, items), states, results);
      assert items[..|items|] == items;
      BatchIsEach(db, items);
    }
  }
}
