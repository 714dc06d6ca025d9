// Histories in which a property fails that holds as long as its condition does: each
// is legal, and short enough to follow.

module Histories {
  import opened Names
  import opened Schema
  import opened Dag
  import opened Transitions
  import opened Enqueue
  import opened Machine
  import opened Frame
  import opened Progress
  import Disruptions
  import Outcomes
  import Sequence
  import Waits

  // A step and a run as they are enqueued, with every option left out.
  function NewStep(ord: int, deps: seq<Str>, queue: Str, seqKey: Str): Step {
    Step(ord, if |deps| > 0 then Blocked else Queued, deps, queue, 0, Empty, Empty, 0, 1, 1, 0, 0, 0, NoWait, Empty, 0,
         map[], {}, seqKey, 0, Empty, 0)
  }

  function PlainRun(queue: Str, seqKey: Str): Run {
    Run(Empty, Queued, queue, Empty, Empty, 0, 1, 1, 0, 0, 0, 0, Empty, Empty, seqKey, 0, false)
  }

  function Plain(id: Str, queue: Str, seqKey: Str, steps: map<Str, Step>): NewRun {
    NewRun(id, PlainRun(queue, seqKey), steps, Reuse, Policy(Empty, 0, Hold))
  }

  function Slots(queue: Str): QueueClaim {
    QueueClaim(queue, 10, 0, 0)
  }

  // A plain run is inserted, numbered if it has a sequence key.
  lemma PlainEnqueued(db: Db, n: NewRun, seqKey: Str, queue: Str, at: int)
    requires n == Plain(n.id, queue, seqKey, n.steps)
    ensures Apply(db, EnqueueRun(n, at)) ==
      if seqKey == Empty then Inserted(db, n) else Inserted(db.(next := db.next + 1), Stamped(n, db.next + 1))
  {
  }

  // ---- a sweep that leaves a live run stuck ----------------------------------------------

  // A run of two steps, the second with or without the first as its dependency.
  function Duo(run: Str, a: Str, b: Str, deps: seq<Str>, queue: Str): NewRun
    requires a != b
  {
    Plain(run, queue, Empty, map[a := NewStep(0, [], queue, Empty), b := NewStep(1, deps, queue, Empty)])
  }

  lemma DuoRanked(a: Str, b: Str, deps: seq<Str>)
    requires a != b && (deps == [] || deps == [a])
    ensures var g: Graph := map[a := [], b := deps]; Closed(g) && exists rank :: Ranks(g, rank)
  {
    var g: Graph, rank: map<Str, nat> := map[a := [], b := deps], map[a := 0, b := 1];
    assert g[a] == [] && g[b] == deps;
    assert Ranks(g, rank);
  }

  lemma DuoWell(run: Str, a: Str, b: Str, deps: seq<Str>, queue: Str)
    requires a != b && (deps == [] || deps == [a])
    ensures WellFormed(Duo(run, a, b, deps, queue))
  {
    var n := Duo(run, a, b, deps, queue);
    DuoRanked(a, b, deps);
    assert DepsOf(n.steps) == map[a := [], b := deps];
    assert WellFormedStep(n.steps[a]) && WellFormedStep(n.steps[b]);
  }

  function PairOf(run: Str, a: Str, b: Str, queue: Str): Db
    requires a != b
  {
    var n := Duo(run, a, b, [a], queue);
    Db(map[run := n.run], map[StepId(run, a) := n.steps[a], StepId(run, b) := n.steps[b]], map[], 0, {})
  }

  lemma PairEnqueued(run: Str, a: Str, b: Str, queue: Str)
    requires a != b
    ensures Apply(EMPTY, EnqueueRun(Duo(run, a, b, [a], queue), 1)) == PairOf(run, a, b, queue)
  {
    var n := Duo(run, a, b, [a], queue);
    PlainEnqueued(EMPTY, n, Empty, queue, 1);
    assert Inserted(EMPTY, n).steps == PairOf(run, a, b, queue).steps;
  }

  function ClaimFirst(run: Str, a: Str, queue: Str, worker: Str): Op {
    ClaimQueue(Slots(queue), [Candidate(StepId(run, a), false)], Claimer(2, worker, 9), {})
  }

  function StartedPair(run: Str, a: Str, b: Str, queue: Str, worker: Str): Db
    requires a != b
  {
    var n := Duo(run, a, b, [a], queue);
    Db(map[run := ClaimedRun(n.run, 2)],
       map[StepId(run, a) := ClaimedStep(n.steps[a], false, Claimer(2, worker, 9)), StepId(run, b) := n.steps[b]],
       map[], 0, {})
  }

  lemma OneClaimed(db: Db, cand: Candidate, c: Claimer)
    ensures ClaimAll(db, [cand], c) == ClaimOne(db, cand.id, cand.resumed, c)
  {
    assert [cand][..0] == [];
  }

  lemma FirstIsDue(run: Str, a: Str, b: Str, queue: Str, worker: Str)
    requires a != b
    ensures Enabled(PairOf(run, a, b, queue), ClaimFirst(run, a, queue, worker))
  {
    var db, cands := PairOf(run, a, b, queue), [Candidate(StepId(run, a), false)];
    assert Due(db, Slots(queue), cands[0].id, 2, {}) && Claimable(db, cands[0].id, false, 2);
    assert forall id | Due(db, Slots(queue), id, 2, {}) :: id == cands[0].id;
    assert IsAnswer(db, Slots(queue), cands, Budget(db, Slots(queue), 2), 2, {});
  }

  lemma FirstClaimed(run: Str, a: Str, b: Str, queue: Str, worker: Str)
    requires a != b
    ensures Apply(PairOf(run, a, b, queue), ClaimFirst(run, a, queue, worker)) == StartedPair(run, a, b, queue, worker)
  {
    var db := PairOf(run, a, b, queue);
    OneClaimed(db, Candidate(StepId(run, a), false), Claimer(2, worker, 9));
    assert Claimable(db, StepId(run, a), false, 2);
  }

  function SweepPrefix(run: Str, a: Str, b: Str, queue: Str, worker: Str): seq<Op>
    requires a != b
  {
    [EnqueueRun(Duo(run, a, b, [a], queue), 1)] + [ClaimFirst(run, a, queue, worker)]
  }

  lemma PrefixRuns(run: Str, a: Str, b: Str, queue: Str, worker: Str)
    requires a != b
    ensures var ops := SweepPrefix(run, a, b, queue, worker);
      Legal(ops) && Exec(ops) == StartedPair(run, a, b, queue, worker) && Clock(ops) == 2
  {
    var op := EnqueueRun(Duo(run, a, b, [a], queue), 1);
    DuoWell(run, a, b, [a], queue);
    PairEnqueued(run, a, b, queue);
    Extended([], EMPTY, op);
    assert [] + [op] == [op];
    FirstIsDue(run, a, b, queue, worker);
    FirstClaimed(run, a, b, queue, worker);
    Extended([op], PairOf(run, a, b, queue), ClaimFirst(run, a, queue, worker));
  }

  // The worker holds the only started step of a run with a step to come.
  predicate HoldsTheOnly(db: Db, worker: Str, run: Str, first: StepId, second: StepId) {
    && first != second && db.steps.Keys == {first, second} && first.run == run == second.run
    && run in db.runs && db.runs[run].status.Running? && !db.runs[run].ephemeral
    && Disruptions.HeldBy(db.steps[first], worker) && db.steps[second].status.Blocked?
  }

  lemma NothingStarted(db: Db, db1: Db, worker: Str, run: Str, first: StepId, second: StepId)
    requires HoldsTheOnly(db, worker, run, first, second)
    requires Quiet(db, db1) && SameShape(db, db1, run)
    requires (exists id :: id in db1.steps && id.run == run && IsStarted(db1.steps[id].status))
      <==> (exists id :: id in db.steps && id.run == run && IsStarted(db.steps[id].status) && !Disruptions.HeldBy(db.steps[id], worker))
    ensures db1.steps.Keys == {first, second} && forall id | id in db1.steps :: !IsStarted(db1.steps[id].status)
  {
    assert first in db.steps && second in db.steps;
    assert forall id | id in db.steps :: id == first || id == second;
  }

  lemma HeldStops(db: Db, worker: Str, now: int, run: Str, first: StepId, second: StepId)
    requires HoldsTheOnly(db, worker, run, first, second) && Rows(db)
    ensures var db1 := InterruptWorker(db, worker, now);
      && db1.steps.Keys == {first, second} && Live(db1, run)
      && (forall id | id in db1.steps :: !IsStarted(db1.steps[id].status))
    ensures !Disruptions.WorkerSpares(db, worker, run)
  {
    assert IsActive(db.steps[second].status) && !Disruptions.HeldBy(db.steps[second], worker);
    assert second in InterruptWorker(db, worker, now).steps;
    InterruptWorkerCalm(db, worker, now, run);
    InterruptWorkerQuiet(db, worker, now);
    Disruptions.RightAfterSweep(db, worker, now, run);
    NothingStarted(db, InterruptWorker(db, worker, now), worker, run, first, second);
  }

  lemma PairSwept(run: Str, a: Str, b: Str, queue: Str, worker: Str)
    requires a != b
    ensures var db, db1 := StartedPair(run, a, b, queue, worker), InterruptWorker(StartedPair(run, a, b, queue, worker), worker, 3);
      && db1.steps.Keys == {StepId(run, a), StepId(run, b)} && Live(db1, run)
      && (forall id | id in db1.steps :: !IsStarted(db1.steps[id].status))
      && !Disruptions.WorkerSpares(db, worker, run)
  {
    HeldStops(StartedPair(run, a, b, queue, worker), worker, 3, run, StepId(run, a), StepId(run, b));
  }

  // The worker that executes the first step closes: the run stays live with a step
  // INTERRUPTED and one BLOCKED, and none that can execute.
  lemma SweepLeavesRunStuck(run: Str, a: Str, b: Str, queue: Str, worker: Str)
    requires a != b
    ensures var front := SweepPrefix(run, a, b, queue, worker);
      var ops := front + [WorkerClosed(worker, 3)];
      && Legal(ops) && Live(Exec(ops), run) && Exec(ops).steps.Keys == {StepId(run, a), StepId(run, b)}
      && (forall id | id in Exec(ops).steps :: !IsStarted(Exec(ops).steps[id].status))
      && !Disruptions.WorkerSpares(Exec(front), worker, run)
  {
    PrefixRuns(run, a, b, queue, worker);
    Extended(SweepPrefix(run, a, b, queue, worker), StartedPair(run, a, b, queue, worker), WorkerClosed(worker, 3));
    PairSwept(run, a, b, queue, worker);
  }

  // ---- a dead letter retried out of turn -----------------------------------------------------

  function OneStep(run: Str, name: Str, queue: Str, key: Str): NewRun {
    Plain(run, queue, key, map[name := NewStep(0, [], queue, key)])
  }

  lemma OneStepWell(run: Str, name: Str, queue: Str, key: Str)
    ensures WellFormed(OneStep(run, name, queue, key))
  {
    var n := OneStep(run, name, queue, key);
    var rank: map<Str, nat> := map[name := 0];
    assert DepsOf(n.steps) == map[name := []] && n.steps[name].deps == [];
    assert Ranks(DepsOf(n.steps), rank);
    assert WellFormedStep(n.steps[name]);
  }

  // A database of two one-step runs, or of the first alone.
  function Alone(run: Str, name: Str, r: Run, s: Step, next: int): Db {
    Db(map[run := r], map[StepId(run, name) := s], map[], next, {})
  }

  function Both(run1: Str, run2: Str, name: Str, r1: Run, s1: Step, r2: Run, s2: Step, next: int): Db {
    Db(map[run1 := r1, run2 := r2], map[StepId(run1, name) := s1, StepId(run2, name) := s2], map[], next, {})
  }

  function Numbered1(queue: Str, key: Str, seqNo: int): Step {
    NewStep(0, [], queue, key).(seqNo := seqNo)
  }

  function NumberedRun(queue: Str, key: Str, seqNo: int): Run {
    PlainRun(queue, key).(seqNo := seqNo)
  }

  function At(now: int): Claimer {
    Claimer(now, Empty, 0)
  }

  function ClaimIt(run: Str, name: Str, queue: Str, c: Claimer): Op {
    ClaimQueue(Slots(queue), [Candidate(StepId(run, name), false)], c, {})
  }

  lemma FirstEnqueued(run: Str, name: Str, queue: Str, key: Str)
    requires key != Empty
    ensures Apply(EMPTY, EnqueueRun(OneStep(run, name, queue, key), 1))
      == Alone(run, name, NumberedRun(queue, key, 1), Numbered1(queue, key, 1), 1)
  {
    var n := OneStep(run, name, queue, key);
    PlainEnqueued(EMPTY, n, key, queue, 1);
    assert Stamped(n, 1).steps == map[name := Numbered1(queue, key, 1)];
    assert Inserted(EMPTY.(next := 1), Stamped(n, 1)).steps == map[StepId(run, name) := Numbered1(queue, key, 1)];
  }

  // The gates let a queued step through if no other of its sequence is active before it.
  predicate Claims(s: Step, queue: Str, now: int) {
    s.status.Queued? && s.queue == queue && s.runAt <= now && s.key == Empty && s.keys == map[] && s.labels == {}
  }

  lemma AloneClaimed(run: Str, name: Str, r: Run, s: Step, next: int, queue: Str, c: Claimer)
    requires Claims(s, queue, c.now) && !r.status.Paused?
    ensures var db := Alone(run, name, r, s, next);
      && Enabled(db, ClaimIt(run, name, queue, c))
      && Apply(db, ClaimIt(run, name, queue, c)) == Alone(run, name, ClaimedRun(r, c.now), ClaimedStep(s, false, c), next)
  {
    var db, id := Alone(run, name, r, s, next), StepId(run, name);
    OneClaimed(db, Candidate(id, false), c);
    assert Claimable(db, id, false, c.now);
    assert forall j | Due(db, Slots(queue), j, c.now, {}) :: j == id;
  }

  // A one-step run that executes.
  function Started(run: Str, name: Str, queue: Str, key: Str, c: Claimer): seq<Op> {
    [EnqueueRun(OneStep(run, name, queue, key), 1)] + [ClaimIt(run, name, queue, c)]
  }

  lemma StartedRuns(run: Str, name: Str, queue: Str, key: Str, c: Claimer)
    requires key != Empty && c.now == 2
    ensures var ops := Started(run, name, queue, key, c);
      && Legal(ops) && Clock(ops) == 2
      && Exec(ops) == Alone(run, name, ClaimedRun(NumberedRun(queue, key, 1), 2), ClaimedStep(Numbered1(queue, key, 1), false, c), 1)
  {
    var op1 := EnqueueRun(OneStep(run, name, queue, key), 1);
    OneStepWell(run, name, queue, key);
    FirstEnqueued(run, name, queue, key);
    Extended([], EMPTY, op1);
    assert [] + [op1] == [op1];
    AloneClaimed(run, name, NumberedRun(queue, key, 1), Numbered1(queue, key, 1), 1, queue, c);
    Extended([op1], Alone(run, name, NumberedRun(queue, key, 1), Numbered1(queue, key, 1), 1), ClaimIt(run, name, queue, c));
  }

  lemma AloneFailed(run: Str, name: Str, r: Run, s: Step, next: int, error: Str, now: int)
    requires !r.ephemeral
    ensures Apply(Alone(run, name, r, s, next), StepFailed(StepId(run, name), error, true, now))
      == Alone(run, name, FailedRun(r, error, true, now), FailedStep(s, true, error), next)
  {
  }

  lemma SecondEnqueued(run1: Str, run2: Str, name: Str, r: Run, s: Step, queue: Str, key: Str, now: int)
    requires run1 != run2 && key != Empty
    ensures Apply(Alone(run1, name, r, s, 1), EnqueueRun(OneStep(run2, name, queue, key), now))
      == Both(run1, run2, name, r, s, NumberedRun(queue, key, 2), Numbered1(queue, key, 2), 2)
  {
    var db, n := Alone(run1, name, r, s, 1), OneStep(run2, name, queue, key);
    PlainEnqueued(db, n, key, queue, now);
    assert Stamped(n, 2).steps == map[name := Numbered1(queue, key, 2)];
    assert Inserted(db.(next := 2), Stamped(n, 2)).steps
      == map[StepId(run1, name) := s, StepId(run2, name) := Numbered1(queue, key, 2)];
  }

  lemma SecondDue(run1: Str, run2: Str, name: Str, r1: Run, s1: Step, r2: Run, s2: Step, queue: Str, now: int)
    requires run1 != run2 && !IsActive(s1.status) && Claims(s2, queue, now) && !r2.status.Paused?
    ensures var db, id := Both(run1, run2, name, r1, s1, r2, s2, 2), StepId(run2, name);
      Claimable(db, id, false, now) && forall j :: Due(db, Slots(queue), j, now, {}) <==> j == id
  {
  }

  lemma SecondClaimed(run1: Str, run2: Str, name: Str, r1: Run, s1: Step, r2: Run, s2: Step, queue: Str, now: int)
    requires run1 != run2 && !IsActive(s1.status) && Claims(s2, queue, now) && !r2.status.Paused?
    ensures var db := Both(run1, run2, name, r1, s1, r2, s2, 2);
      && Enabled(db, ClaimIt(run2, name, queue, At(now)))
      && ClaimAll(db, [Candidate(StepId(run2, name), false)], At(now))
         == Both(run1, run2, name, r1, s1, ClaimedRun(r2, now), ClaimedStep(s2, false, At(now)), 2)
  {
    var db, id := Both(run1, run2, name, r1, s1, r2, s2, 2), StepId(run2, name);
    SecondDue(run1, run2, name, r1, s1, r2, s2, queue, now);
    OneClaimed(db, Candidate(id, false), At(now));
  }

  lemma OneReset(x: StepId, y: StepId, s: Step, t: Step, now: int)
    requires x.run != y.run
    ensures var steps := map[x := s, y := t];
      (map id | id in steps :: if id.run == x.run then ResetStep(steps[id], now) else steps[id])
      == map[x := ResetStep(s, now), y := t]
  {
  }

  function Reopened(r: Run, now: int): Run {
    r.(status := Queued, attempts := 0, error := Empty, output := Empty, startedAt := 0, completedAt := 0, runAt := now, deadAt := 0)
  }

  lemma FirstRetried(run1: Str, run2: Str, name: Str, r1: Run, s1: Step, r2: Run, s2: Step, now: int)
    requires run1 != run2 && r1.status.Failed? && r1.deadAt != 0
    ensures RetryDeadLetter(Both(run1, run2, name, r1, s1, r2, s2, 2), run1, now)
      == Both(run1, run2, name, Reopened(r1, now), ResetStep(s1, now), r2, s2, 2)
  {
    OneReset(StepId(run1, name), StepId(run2, name), s1, s2, now);
    assert IsDeadLetter(Both(run1, run2, name, r1, s1, r2, s2, 2), run1);
  }

  lemma FirstDue(run1: Str, run2: Str, name: Str, r1: Run, s1: Step, r2: Run, s2: Step, queue: Str, now: int)
    requires run1 != run2 && s2.status.Running? && Claims(s1, queue, now) && !r1.status.Paused? && s1.seqNo < s2.seqNo
    ensures var db, id := Both(run1, run2, name, r1, s1, r2, s2, 2), StepId(run1, name);
      Claimable(db, id, false, now) && forall j :: Due(db, Slots(queue), j, now, {}) <==> j == id
  {
  }

  lemma FirstReclaimed(run1: Str, run2: Str, name: Str, r1: Run, s1: Step, r2: Run, s2: Step, queue: Str, now: int)
    requires run1 != run2 && s2.status.Running? && Claims(s1, queue, now) && !r1.status.Paused? && s1.seqNo < s2.seqNo
    ensures var db := Both(run1, run2, name, r1, s1, r2, s2, 2);
      && Enabled(db, ClaimIt(run1, name, queue, At(now)))
      && ClaimAll(db, [Candidate(StepId(run1, name), false)], At(now))
         == Both(run1, run2, name, ClaimedRun(r1, now), ClaimedStep(s1, false, At(now)), r2, s2, 2)
  {
    var db, id := Both(run1, run2, name, r1, s1, r2, s2, 2), StepId(run1, name);
    FirstDue(run1, run2, name, r1, s1, r2, s2, queue, now);
    OneClaimed(db, Candidate(id, false), At(now));
  }

  function RetryPrefix(run1: Str, run2: Str, name: Str, queue: Str, key: Str, error: Str): seq<Op> {
    Started(run1, name, queue, key, At(2)) + [StepFailed(StepId(run1, name), error, true, 3)]
    + [EnqueueRun(OneStep(run2, name, queue, key), 4)] + [ClaimIt(run2, name, queue, At(5))]
  }

  // Both runs of the sequence, the first failed and the second executing.
  function Overtaking(run1: Str, run2: Str, name: Str, queue: Str, key: Str, error: Str): Db {
    Both(run1, run2, name,
         FailedRun(ClaimedRun(NumberedRun(queue, key, 1), 2), error, true, 3),
         FailedStep(ClaimedStep(Numbered1(queue, key, 1), false, At(2)), true, error),
         ClaimedRun(NumberedRun(queue, key, 2), 5), ClaimedStep(Numbered1(queue, key, 2), false, At(5)), 2)
  }

  lemma FailedAlone(run: Str, name: Str, queue: Str, key: Str, error: Str)
    requires key != Empty
    ensures var ops := Started(run, name, queue, key, At(2)) + [StepFailed(StepId(run, name), error, true, 3)];
      && Legal(ops) && Clock(ops) == 3
      && Exec(ops) == Alone(run, name, FailedRun(ClaimedRun(NumberedRun(queue, key, 1), 2), error, true, 3),
                            FailedStep(ClaimedStep(Numbered1(queue, key, 1), false, At(2)), true, error), 1)
  {
    var r, x := ClaimedRun(NumberedRun(queue, key, 1), 2), ClaimedStep(Numbered1(queue, key, 1), false, At(2));
    StartedRuns(run, name, queue, key, At(2));
    AloneFailed(run, name, r, x, 1, error, 3);
    Extended(Started(run, name, queue, key, At(2)), Alone(run, name, r, x, 1), StepFailed(StepId(run, name), error, true, 3));
  }

  lemma SecondRuns(ops: seq<Op>, run1: Str, run2: Str, name: Str, r: Run, x: Step, queue: Str, key: Str)
    requires run1 != run2 && key != Empty && !IsActive(x.status)
    requires Legal(ops) && Clock(ops) == 3 && Exec(ops) == Alone(run1, name, r, x, 1)
    ensures var all := ops + [EnqueueRun(OneStep(run2, name, queue, key), 4)] + [ClaimIt(run2, name, queue, At(5))];
      && Legal(all) && Clock(all) == 5
      && Exec(all) == Both(run1, run2, name, r, x, ClaimedRun(NumberedRun(queue, key, 2), 5),
                           ClaimedStep(Numbered1(queue, key, 2), false, At(5)), 2)
  {
    var op4, op5 := EnqueueRun(OneStep(run2, name, queue, key), 4), ClaimIt(run2, name, queue, At(5));
    OneStepWell(run2, name, queue, key);
    SecondEnqueued(run1, run2, name, r, x, queue, key, 4);
    Extended(ops, Alone(run1, name, r, x, 1), op4);
    SecondClaimed(run1, run2, name, r, x, NumberedRun(queue, key, 2), Numbered1(queue, key, 2), queue, 5);
    Extended(ops + [op4], Both(run1, run2, name, r, x, NumberedRun(queue, key, 2), Numbered1(queue, key, 2), 2), op5);
  }

  lemma OvertakingRuns(run1: Str, run2: Str, name: Str, queue: Str, key: Str, error: Str)
    requires run1 != run2 && key != Empty
    ensures var ops := RetryPrefix(run1, run2, name, queue, key, error);
      Legal(ops) && Clock(ops) == 5 && Exec(ops) == Overtaking(run1, run2, name, queue, key, error)
  {
    var ops := Started(run1, name, queue, key, At(2)) + [StepFailed(StepId(run1, name), error, true, 3)];
    FailedAlone(run1, name, queue, key, error);
    SecondRuns(ops, run1, run2, name, FailedRun(ClaimedRun(NumberedRun(queue, key, 1), 2), error, true, 3),
               FailedStep(ClaimedStep(Numbered1(queue, key, 1), false, At(2)), true, error), queue, key);
  }

  predicate RunTogether(db: Db, x: StepId, y: StepId, key: Str) {
    && x in db.steps && y in db.steps && IsRunning(db, x) && IsRunning(db, y)
    && db.steps[x].seqKey == key == db.steps[y].seqKey
  }

  lemma RetriedAndClaimed(front: seq<Op>, run1: Str, run2: Str, name: Str, r1: Run, x: Step, r2: Run, y: Step, queue: Str)
    requires run1 != run2 && r1.status.Failed? && r1.deadAt != 0 && y.status.Running? && x.seqNo < y.seqNo && x.seqKey == y.seqKey
    requires x.queue == queue && x.key == Empty && x.keys == map[] && x.labels == {} && x.deps == []
    requires Legal(front) && Clock(front) == 5 && Exec(front) == Both(run1, run2, name, r1, x, r2, y, 2)
    ensures var ops := front + [DeadLetterRetried(run1, 6)] + [ClaimIt(run1, name, queue, At(7))];
      Legal(ops) && RunTogether(Exec(ops), StepId(run1, name), StepId(run2, name), x.seqKey)
  {
    var db := Both(run1, run2, name, r1, x, r2, y, 2);
    var r3, x3 := Reopened(r1, 6), ResetStep(x, 6);
    Extended(front, db, DeadLetterRetried(run1, 6));
    FirstRetried(run1, run2, name, r1, x, r2, y, 6);
    FirstReclaimed(run1, run2, name, r3, x3, r2, y, queue, 7);
    Extended(front + [DeadLetterRetried(run1, 6)], Both(run1, run2, name, r3, x3, r2, y, 2), ClaimIt(run1, name, queue, At(7)));
  }

  lemma OutOfTurn(run1: Str, run2: Str, name: Str, r1: Run, x: Step, r2: Run, y: Step)
    requires run1 != run2 && Sequence.Before(x, y) && Sequence.Begun(y)
    ensures !Sequence.RetriedInTurn(Both(run1, run2, name, r1, x, r2, y, 2), run1)
  {
    var db := Both(run1, run2, name, r1, x, r2, y, 2);
    assert db.steps[StepId(run1, name)] == x && db.steps[StepId(run2, name)] == y;
  }

  // The first run of a sequence fails and the second starts; then the first is
  // retried, and both execute at once.
  lemma RetryBreaksOrder(run1: Str, run2: Str, name: Str, queue: Str, key: Str, error: Str)
    requires run1 != run2 && key != Empty
    ensures var front := RetryPrefix(run1, run2, name, queue, key, error);
      var ops := front + [DeadLetterRetried(run1, 6)] + [ClaimIt(run1, name, queue, At(7))];
      && Legal(ops) && !Sequence.RetriedInTurn(Exec(front), run1)
      && RunTogether(Exec(ops), StepId(run1, name), StepId(run2, name), key)
  {
    var r1, x := FailedRun(ClaimedRun(NumberedRun(queue, key, 1), 2), error, true, 3),
      FailedStep(ClaimedStep(Numbered1(queue, key, 1), false, At(2)), true, error);
    var r2, y := ClaimedRun(NumberedRun(queue, key, 2), 5), ClaimedStep(Numbered1(queue, key, 2), false, At(5));
    OvertakingRuns(run1, run2, name, queue, key, error);
    OutOfTurn(run1, run2, name, r1, x, r2, y);
    RetriedAndClaimed(RetryPrefix(run1, run2, name, queue, key, error), run1, run2, name, r1, x, r2, y, queue);
  }

  // ---- a wakeup lost after a dead-letter retry -------------------------------------------------

  // A database of one run of two steps, the first of which has a journal.
  function PairDb(run: Str, a: Str, b: Str, r: Run, s: Step, t: Step, j: seq<Entry>): Db
    requires a != b
  {
    Db(map[run := r], map[StepId(run, a) := s, StepId(run, b) := t], if j == [] then map[] else map[StepId(run, a) := j], 0, {})
  }

  predicate ReadyStep(s: Step, queue: Str, now: int) {
    && s.status.Queued? && s.queue == queue && s.runAt <= now && s.priority == 0
    && s.key == Empty && s.keys == map[] && s.labels == {} && s.seqKey == Empty
  }

  // A step that is not to be claimed for now.
  predicate InHand(s: Step) {
    s.status.Running? || s.status.Succeeded? || (s.status.Suspended? && s.resumeAt == 0)
  }

  // A claim of one step, from a queue of two.
  function ClaimNext(id: StepId, queue: Str, c: Claimer): Op {
    ClaimQueue(QueueClaim(queue, 1, 0, 0), [Candidate(id, false)], c, {})
  }

  lemma FirstIsNext(run: Str, a: Str, b: Str, r: Run, s: Step, t: Step, j: seq<Entry>, queue: Str, c: Claimer)
    requires a != b && ReadyStep(s, queue, c.now) && ReadyStep(t, queue, c.now) && s.runAt == t.runAt && s.ord < t.ord && !r.status.Paused?
    ensures Enabled(PairDb(run, a, b, r, s, t, j), ClaimNext(StepId(run, a), queue, c))
  {
    var db, q := PairDb(run, a, b, r, s, t, j), QueueClaim(queue, 1, 0, 0);
    assert Due(db, q, StepId(run, a), c.now, {});
    assert forall id | Due(db, q, id, c.now, {}) :: id == StepId(run, a) || id == StepId(run, b);
  }

  lemma FirstClaims(run: Str, a: Str, b: Str, r: Run, s: Step, t: Step, j: seq<Entry>, queue: Str, c: Claimer)
    requires a != b && ReadyStep(s, queue, c.now) && !r.status.Paused?
    ensures var db, id := PairDb(run, a, b, r, s, t, j), StepId(run, a);
      && ClaimAll(db, [Candidate(id, false)], c) == PairDb(run, a, b, ClaimedRun(r, c.now), ClaimedStep(s, false, c), t, j)
      && id in ClaimLog(db, [Candidate(id, false)], c)
  {
    var db, id := PairDb(run, a, b, r, s, t, j), StepId(run, a);
    OneClaimed(db, Candidate(id, false), c);
    assert Claimable(db, id, false, c.now);
  }

  lemma SecondIsNext(run: Str, a: Str, b: Str, r: Run, s: Step, t: Step, j: seq<Entry>, queue: Str, c: Claimer)
    requires a != b && InHand(s) && ReadyStep(t, queue, c.now) && !r.status.Paused?
    ensures Enabled(PairDb(run, a, b, r, s, t, j), ClaimNext(StepId(run, b), queue, c))
  {
    var db, id := PairDb(run, a, b, r, s, t, j), StepId(run, b);
    assert forall i :: Due(db, QueueClaim(queue, 1, 0, 0), i, c.now, {}) <==> i == id;
  }

  lemma SecondClaims(run: Str, a: Str, b: Str, r: Run, s: Step, t: Step, j: seq<Entry>, queue: Str, c: Claimer)
    requires a != b && InHand(s) && ReadyStep(t, queue, c.now) && !r.status.Paused?
    ensures ClaimAll(PairDb(run, a, b, r, s, t, j), [Candidate(StepId(run, b), false)], c)
      == PairDb(run, a, b, ClaimedRun(r, c.now), s, ClaimedStep(t, false, c), j)
  {
    var db, id := PairDb(run, a, b, r, s, t, j), StepId(run, b);
    OneClaimed(db, Candidate(id, false), c);
    assert Claimable(db, id, false, c.now);
  }

  lemma SiblingsEnqueued(run: Str, a: Str, b: Str, queue: Str)
    requires a != b
    ensures Apply(EMPTY, EnqueueRun(Duo(run, a, b, [], queue), 1))
      == PairDb(run, a, b, PlainRun(queue, Empty), NewStep(0, [], queue, Empty), NewStep(1, [], queue, Empty), [])
  {
    var n := Duo(run, a, b, [], queue);
    PlainEnqueued(EMPTY, n, Empty, queue, 1);
    assert Inserted(EMPTY, n).steps == map[StepId(run, a) := n.steps[a], StepId(run, b) := n.steps[b]];
  }

  function OpenWait(event: Str): Entry {
    Entry(Kind.WaitFor, Empty, event, 0, 0, Empty, Empty, false, false)
  }

  function Awaits1(run: Str, a: Str, event: Str): Op {
    AwaitRecorded(StepId(run, a), 0, OpenWait(event), EventWait(event), 0, 3)
  }

  lemma WaitRecorded(run: Str, a: Str, b: Str, r: Run, s: Step, t: Step, event: Str)
    requires a != b && s.status.Running?
    ensures Apply(PairDb(run, a, b, r, s, t, []), Awaits1(run, a, event))
      == PairDb(run, a, b, r, SuspendedStep(s, EventWait(event), 0), t, [OpenWait(event)])
  {
    assert [] + [OpenWait(event)] == [OpenWait(event)];
  }

  lemma OneFails(x: StepId, y: StepId, s: Step, t: Step, error: Str)
    requires x != y && x.run == y.run && IsActive(s.status)
    ensures var steps := map[x := s, y := t];
      (map j | j in steps :: if j.run == y.run then FailedStep(steps[j], j == y, error) else steps[j])
      == map[x := s.(status := Cancelled), y := FailedStep(t, true, error)]
  {
  }

  lemma SiblingFails(run: Str, a: Str, b: Str, r: Run, s: Step, t: Step, j: seq<Entry>, error: Str)
    requires a != b && !r.ephemeral && IsActive(s.status)
    ensures FinalFail(PairDb(run, a, b, r, s, t, j), StepId(run, b), error, true, 5)
      == PairDb(run, a, b, FailedRun(r, error, true, 5), s.(status := Cancelled), FailedStep(t, true, error), j)
  {
    OneFails(StepId(run, a), StepId(run, b), s, t, error);
  }

  lemma AllReset(x: StepId, y: StepId, s: Step, t: Step, now: int)
    requires x != y && x.run == y.run
    ensures var steps := map[x := s, y := t];
      (map id | id in steps :: if id.run == x.run then ResetStep(steps[id], now) else steps[id])
      == map[x := ResetStep(s, now), y := ResetStep(t, now)]
  {
  }

  lemma PairRetried(run: Str, a: Str, b: Str, r: Run, s: Step, t: Step, j: seq<Entry>)
    requires a != b && r.status.Failed? && r.deadAt != 0
    ensures RetryDeadLetter(PairDb(run, a, b, r, s, t, j), run, 6)
      == PairDb(run, a, b, Reopened(r, 6), ResetStep(s, 6), ResetStep(t, 6), j)
  {
    var db := PairDb(run, a, b, r, s, t, j);
    AllReset(StepId(run, a), StepId(run, b), s, t, 6);
    assert IsDeadLetter(db, run);
  }

  lemma OneDelivered(x: StepId, event: Str, payload: Str)
    ensures var journal := map[x := [OpenWait(event)]];
      (map id | id in journal :: DeliverJournal(journal[id], event, payload)) == map[x := [DeliverEntry(OpenWait(event), event, payload)]]
  {
    assert DeliverJournal([OpenWait(event)], event, payload) == [DeliverEntry(OpenWait(event), event, payload)];
  }

  lemma EventComes(run: Str, a: Str, b: Str, r: Run, s: Step, t: Step, event: Str, payload: Str)
    requires a != b && s.status.Running? && !IsTerminal(r.status)
    ensures DeliverEvent(PairDb(run, a, b, r, s, t, [OpenWait(event)]), event, payload)
      == PairDb(run, a, b, r, s, t, [DeliverEntry(OpenWait(event), event, payload)])
  {
    var db := PairDb(run, a, b, r, s, t, [OpenWait(event)]);
    OneDelivered(StepId(run, a), event, payload);
    assert Reachable(db, StepId(run, a)) && Journal(db, StepId(run, b)) == [];
    assert DeliverEvent(db, event, payload).steps == db.steps;
  }

  // The first step of a run waits for an event; its sibling fails, and the run with it.
  function DeathPrefix(run: Str, a: Str, b: Str, queue: Str, event: Str, error: Str): seq<Op>
    requires a != b
  {
    [EnqueueRun(Duo(run, a, b, [], queue), 1)] + [ClaimNext(StepId(run, a), queue, At(2))] + [Awaits1(run, a, event)]
    + [ClaimNext(StepId(run, b), queue, At(4))] + [StepFailed(StepId(run, b), error, true, 5)]
  }

  // The run is retried and its first step claimed; the event comes before the step
  // gets to its wait.
  function RevivedBy(front: seq<Op>, run: Str, a: Str, queue: Str, event: Str, payload: Str): seq<Op> {
    front + [DeadLetterRetried(run, 6)] + [ClaimNext(StepId(run, a), queue, At(7))] + [EventEmitted(event, payload, 8)]
  }

  lemma FirstStarts(run: Str, a: Str, b: Str, queue: Str)
    requires a != b
    ensures var ops := [EnqueueRun(Duo(run, a, b, [], queue), 1)] + [ClaimNext(StepId(run, a), queue, At(2))];
      && Legal(ops) && Waits.Disciplined(ops) && Clock(ops) == 2 && Waits.Loaded(ops, StepId(run, a)) == []
      && Exec(ops) == PairDb(run, a, b, ClaimedRun(PlainRun(queue, Empty), 2),
                             ClaimedStep(NewStep(0, [], queue, Empty), false, At(2)), NewStep(1, [], queue, Empty), [])
  {
    var op1, op2, id := EnqueueRun(Duo(run, a, b, [], queue), 1), ClaimNext(StepId(run, a), queue, At(2)), StepId(run, a);
    var r, s, t := PlainRun(queue, Empty), NewStep(0, [], queue, Empty), NewStep(1, [], queue, Empty);
    var db1 := PairDb(run, a, b, r, s, t, []);
    DuoWell(run, a, b, [], queue);
    SiblingsEnqueued(run, a, b, queue);
    Extended([], EMPTY, op1);
    assert [] + [op1] == [op1];
    Waits.ExtendedDiscipline([], EMPTY, op1);
    FirstIsNext(run, a, b, r, s, t, [], queue, At(2));
    FirstClaims(run, a, b, r, s, t, [], queue, At(2));
    Extended([op1], db1, op2);
    Waits.ExtendedDiscipline([op1], db1, op2);
    Waits.ExtendedLoad([op1], db1, op2, id);
  }

  lemma FirstWaits(front: seq<Op>, run: Str, a: Str, b: Str, r: Run, s: Step, t: Step, event: Str)
    requires a != b && s.status.Running? && Legal(front) && Waits.Disciplined(front) && Clock(front) == 2
    requires Waits.Loaded(front, StepId(run, a)) == [] && Exec(front) == PairDb(run, a, b, r, s, t, [])
    ensures var ops := front + [Awaits1(run, a, event)];
      && Legal(ops) && Waits.Disciplined(ops) && Clock(ops) == 3
      && Exec(ops) == PairDb(run, a, b, r, SuspendedStep(s, EventWait(event), 0), t, [OpenWait(event)])
  {
    var db, op := PairDb(run, a, b, r, s, t, []), Awaits1(run, a, event);
    WaitRecorded(run, a, b, r, s, t, event);
    Extended(front, db, op);
    Waits.ExtendedDiscipline(front, db, op);
  }

  lemma SecondDies(front: seq<Op>, run: Str, a: Str, b: Str, r: Run, s: Step, t: Step, queue: Str, event: Str, error: Str)
    requires a != b && s.status.Suspended? && s.resumeAt == 0 && ReadyStep(t, queue, 4) && !r.status.Paused? && !r.ephemeral
    requires Legal(front) && Waits.Disciplined(front) && Clock(front) == 3
    requires Exec(front) == PairDb(run, a, b, r, s, t, [OpenWait(event)])
    ensures var ops := front + [ClaimNext(StepId(run, b), queue, At(4))] + [StepFailed(StepId(run, b), error, true, 5)];
      && Legal(ops) && Waits.Disciplined(ops) && Clock(ops) == 5
      && Exec(ops) == PairDb(run, a, b, FailedRun(ClaimedRun(r, 4), error, true, 5), s.(status := Cancelled),
                             FailedStep(ClaimedStep(t, false, At(4)), true, error), [OpenWait(event)])
  {
    var op4, op5 := ClaimNext(StepId(run, b), queue, At(4)), StepFailed(StepId(run, b), error, true, 5);
    var j := [OpenWait(event)];
    SecondIsNext(run, a, b, r, s, t, j, queue, At(4));
    SecondClaims(run, a, b, r, s, t, j, queue, At(4));
    Extended(front, PairDb(run, a, b, r, s, t, j), op4);
    Waits.ExtendedDiscipline(front, PairDb(run, a, b, r, s, t, j), op4);
    SiblingFails(run, a, b, ClaimedRun(r, 4), s, ClaimedStep(t, false, At(4)), j, error);
    Extended(front + [op4], PairDb(run, a, b, ClaimedRun(r, 4), s, ClaimedStep(t, false, At(4)), j), op5);
    Waits.ExtendedDiscipline(front + [op4], PairDb(run, a, b, ClaimedRun(r, 4), s, ClaimedStep(t, false, At(4)), j), op5);
  }

  predicate Bare(s: Step, queue: Str) {
    && s.queue == queue && s.priority == 0 && s.deps == []
    && s.key == Empty && s.keys == map[] && s.labels == {} && s.seqKey == Empty
  }

  lemma FirstReloads(front: seq<Op>, run: Str, a: Str, b: Str, r: Run, s: Step, t: Step, queue: Str, event: Str)
    requires a != b && r.status.Failed? && r.deadAt != 0 && Bare(s, queue) && Bare(t, queue) && s.ord < t.ord
    requires Legal(front) && Clock(front) == 5 && Exec(front) == PairDb(run, a, b, r, s, t, [OpenWait(event)])
    ensures var ops := front + [DeadLetterRetried(run, 6)] + [ClaimNext(StepId(run, a), queue, At(7))];
      && Legal(ops) && Clock(ops) == 7 && Waits.Loaded(ops, StepId(run, a)) == [OpenWait(event)]
      && Exec(ops) == PairDb(run, a, b, ClaimedRun(Reopened(r, 6), 7), ClaimedStep(ResetStep(s, 6), false, At(7)),
                             ResetStep(t, 6), [OpenWait(event)])
  {
    var op6, op7, j := DeadLetterRetried(run, 6), ClaimNext(StepId(run, a), queue, At(7)), [OpenWait(event)];
    var r6, s6, t6 := Reopened(r, 6), ResetStep(s, 6), ResetStep(t, 6);
    PairRetried(run, a, b, r, s, t, j);
    Extended(front, PairDb(run, a, b, r, s, t, j), op6);
    FirstIsNext(run, a, b, r6, s6, t6, j, queue, At(7));
    FirstClaims(run, a, b, r6, s6, t6, j, queue, At(7));
    Extended(front + [op6], PairDb(run, a, b, r6, s6, t6, j), op7);
    Waits.ExtendedLoad(front + [op6], PairDb(run, a, b, r6, s6, t6, j), op7, StepId(run, a));
  }

  lemma EventMissed(front: seq<Op>, run: Str, a: Str, b: Str, r: Run, s: Step, t: Step, event: Str, payload: Str)
    requires a != b && s.status.Running? && !IsTerminal(r.status) && Legal(front) && Clock(front) == 7
    requires Exec(front) == PairDb(run, a, b, r, s, t, [OpenWait(event)])
    ensures var ops := front + [EventEmitted(event, payload, 8)];
      && Legal(ops) && Clock(ops) == 8 && Waits.Loaded(ops, StepId(run, a)) == Waits.Loaded(front, StepId(run, a))
      && Exec(ops) == PairDb(run, a, b, r, s, t, [DeliverEntry(OpenWait(event), event, payload)])
  {
    var db, op := PairDb(run, a, b, r, s, t, [OpenWait(event)]), EventEmitted(event, payload, 8);
    EventComes(run, a, b, r, s, t, event, payload);
    Extended(front, db, op);
    Waits.ExtendedLoad(front, db, op, StepId(run, a));
  }

  lemma SuspendedAgain(run: Str, a: Str, b: Str, r: Run, s: Step, t: Step, e: Entry, event: Str)
    requires a != b && s.status.Running?
    ensures SuspendStep(PairDb(run, a, b, r, s, t, [e]), StepId(run, a), EventWait(event), 0)
      == PairDb(run, a, b, r, SuspendedStep(s, EventWait(event), 0), t, [e])
  {
  }

  predicate AsleepForEver(db: Db, id: StepId, e: Entry, event: Str) {
    && Live(db, id.run) && Waits.IsSuspended(db, id) && db.steps[id].wait == EventWait(event) && db.steps[id].resumeAt == 0
    && Journal(db, id) == [e] && e.done
  }

  lemma FirstSuspends(front: seq<Op>, run: Str, a: Str, b: Str, r: Run, s: Step, t: Step, e: Entry, event: Str)
    requires a != b && s.status.Running? && !IsTerminal(r.status) && e.done
    requires Legal(front) && Clock(front) == 8 && Exec(front) == PairDb(run, a, b, r, s, t, [e])
    requires Waits.Loaded(front, StepId(run, a)) == [OpenWait(event)]
    ensures var op := AwaitResumed(StepId(run, a), EventWait(event), 0, 9);
      && Legal(front + [op]) && Waits.ByTheBook(Exec(front), Waits.Loaded(front, StepId(run, a)), op)
      && AsleepForEver(Exec(front + [op]), StepId(run, a), e, event)
  {
    var db, op := PairDb(run, a, b, r, s, t, [e]), AwaitResumed(StepId(run, a), EventWait(event), 0, 9);
    SuspendedAgain(run, a, b, r, s, t, e, event);
    Extended(front, db, op);
    assert Waits.Resumable([OpenWait(event)][0], EventWait(event), 0, 9);
  }

  lemma DeadWaits(run: Str, a: Str, b: Str, r: Run, s: Step, t: Step, event: Str)
    requires a != b && r.status.Failed? && r.deadAt != 0
    ensures !Waits.RetriedInTime(PairDb(run, a, b, r, s, t, [OpenWait(event)]), DeadLetterRetried(run, 6))
  {
    var db := PairDb(run, a, b, r, s, t, [OpenWait(event)]);
    assert StepId(run, a) in db.steps && !Waits.Overdue(Journal(db, StepId(run, a))[0], 6);
  }

  ghost predicate Strands(death: seq<Op>, front: seq<Op>, run: Str, id: StepId, event: Str, payload: Str) {
    var op := AwaitResumed(id, EventWait(event), 0, 9);
    && Legal(front + [op]) && Waits.Disciplined(death) && !Waits.RetriedInTime(Exec(death), DeadLetterRetried(run, 6))
    && Waits.ByTheBook(Exec(front), Waits.Loaded(front, id), op)
    && AsleepForEver(Exec(front + [op]), id, DeliverEntry(OpenWait(event), event, payload), event)
  }

  lemma DeadIsStranded(death: seq<Op>, run: Str, a: Str, b: Str, r: Run, s: Step, t: Step, queue: Str, event: Str, payload: Str)
    requires a != b && r.status.Failed? && r.deadAt != 0 && Bare(s, queue) && Bare(t, queue) && s.ord < t.ord
    requires Legal(death) && Waits.Disciplined(death) && Clock(death) == 5 && Exec(death) == PairDb(run, a, b, r, s, t, [OpenWait(event)])
    ensures Strands(death, RevivedBy(death, run, a, queue, event, payload), run, StepId(run, a), event, payload)
  {
    DeadWaits(run, a, b, r, s, t, event);
    var r7, s7, t7 := ClaimedRun(Reopened(r, 6), 7), ClaimedStep(ResetStep(s, 6), false, At(7)), ResetStep(t, 6);
    FirstReloads(death, run, a, b, r, s, t, queue, event);
    EventMissed(death + [DeadLetterRetried(run, 6)] + [ClaimNext(StepId(run, a), queue, At(7))], run, a, b, r7, s7, t7, event, payload);
    FirstSuspends(RevivedBy(death, run, a, queue, event, payload), run, a, b, r7, s7, t7,
                  DeliverEntry(OpenWait(event), event, payload), event);
  }

  // Every executor keeps to its journal, and still the step ends up suspended in a live
  // run on a wait that its journal holds as decided, with no deadline.
  lemma RetryLosesWakeup(run: Str, a: Str, b: Str, queue: Str, event: Str, error: Str, payload: Str)
    requires a != b
    ensures var death := DeathPrefix(run, a, b, queue, event, error);
      Strands(death, RevivedBy(death, run, a, queue, event, payload), run, StepId(run, a), event, payload)
  {
    var r2, s, t := ClaimedRun(PlainRun(queue, Empty), 2), ClaimedStep(NewStep(0, [], queue, Empty), false, At(2)), NewStep(1, [], queue, Empty);
    var s3 := SuspendedStep(s, EventWait(event), 0);
    var ops := [EnqueueRun(Duo(run, a, b, [], queue), 1)] + [ClaimNext(StepId(run, a), queue, At(2))];
    FirstStarts(run, a, b, queue);
    FirstWaits(ops, run, a, b, r2, s, t, event);
    SecondDies(ops + [Awaits1(run, a, event)], run, a, b, r2, s3, t, queue, event, error);
    DeadIsStranded(DeathPrefix(run, a, b, queue, event, error), run, a, b, FailedRun(ClaimedRun(r2, 4), error, true, 5),
                   s3.(status := Cancelled), FailedStep(ClaimedStep(t, false, At(4)), true, error), queue, event, payload);
  }

  // ---- a run that succeeds without one of its steps -------------------------------------------

  // A step whose worker closed while it executed.
  function Lost(s: Step): Step {
    s.(status := Status.Interrupted, worker := Empty, lease := 0)
  }

  lemma FirstLostSteps(run: Str, a: Str, b: Str, r: Run, s: Step, t: Step, worker: Str, now: int)
    requires a != b && !r.ephemeral && Disruptions.HeldBy(s, worker) && t.worker != worker
    ensures var db1 := InterruptWorker(PairDb(run, a, b, r, s, t, []), worker, now);
      db1.steps == map[StepId(run, a) := Lost(s), StepId(run, b) := t] && db1.journal == map[]
  {
  }

  lemma FirstLost(run: Str, a: Str, b: Str, r: Run, s: Step, t: Step, worker: Str, now: int)
    requires a != b && !r.ephemeral && Disruptions.HeldBy(s, worker) && t.status.Running? && t.worker != worker
    ensures InterruptWorker(PairDb(run, a, b, r, s, t, []), worker, now) == PairDb(run, a, b, r, Lost(s), t, [])
  {
    var db := PairDb(run, a, b, r, s, t, []);
    FirstLostSteps(run, a, b, r, s, t, worker, now);
    OtherActive(db, worker, now, run, StepId(run, b));
    InterruptWorkerRows(db, worker, now);
  }

  lemma OtherActive(db: Db, worker: Str, now: int, run: Str, id: StepId)
    requires Rows(db) && run in db.runs && !db.runs[run].ephemeral
    requires id in db.steps && id.run == run && IsActive(db.steps[id].status) && !Disruptions.HeldBy(db.steps[id], worker)
    ensures run in InterruptWorker(db, worker, now).runs && InterruptWorker(db, worker, now).runs[run] == db.runs[run]
  {
  }

  predicate SucceedsWithout(db: Db, run: Str, id: StepId) {
    && run in db.runs && db.runs[run].status.Succeeded?
    && id in db.steps && db.steps[id].status.Interrupted?
  }

  lemma SecondIsLast(run: Str, a: Str, b: Str, s: Step, t: Step, output: Str, now: int)
    requires a != b && s.status.Interrupted? && t.status.Running?
    ensures var steps := SucceedStep(map[StepId(run, a) := s, StepId(run, b) := t], StepId(run, b), output);
      && Unblocked(steps, run, b) == {} && QueueSteps(steps, run, {}, now) == steps
      && !AnyActive(steps, run) && !AnyFailed(steps, run)
  {
  }

  lemma SecondDone(run: Str, a: Str, b: Str, r: Run, s: Step, t: Step, output: Str, now: int)
    requires a != b && !IsTerminal(r.status) && !r.ephemeral && s.status.Interrupted? && t.status.Running?
    ensures var done := CompleteStep(PairDb(run, a, b, r, s, t, []), StepId(run, b), output, now);
      done.Some? && SucceedsWithout(done.value.0, run, StepId(run, a))
  {
    var db := PairDb(run, a, b, r, s, t, []);
    assert StepsOf(db.steps, run) == {StepId(run, a), StepId(run, b)};
    SecondIsLast(run, a, b, s, t, output, now);
  }

  // Both steps of a run execute, under two workers.
  function SharedPrefix(run: Str, a: Str, b: Str, queue: Str, worker: Str, other: Str): seq<Op>
    requires a != b
  {
    [EnqueueRun(Duo(run, a, b, [], queue), 1)] + [ClaimNext(StepId(run, a), queue, Claimer(2, worker, 0))]
    + [ClaimNext(StepId(run, b), queue, Claimer(3, other, 0))]
  }

  function SharedRun(queue: Str): Run {
    ClaimedRun(ClaimedRun(PlainRun(queue, Empty), 2), 3)
  }

  lemma SharedRuns(run: Str, a: Str, b: Str, queue: Str, worker: Str, other: Str)
    requires a != b
    ensures var ops := SharedPrefix(run, a, b, queue, worker, other);
      && Legal(ops) && Clock(ops) == 3
      && Exec(ops) == PairDb(run, a, b, SharedRun(queue), ClaimedStep(NewStep(0, [], queue, Empty), false, Claimer(2, worker, 0)),
                             ClaimedStep(NewStep(1, [], queue, Empty), false, Claimer(3, other, 0)), [])
  {
    var op1, op2 := EnqueueRun(Duo(run, a, b, [], queue), 1), ClaimNext(StepId(run, a), queue, Claimer(2, worker, 0));
    var op3 := ClaimNext(StepId(run, b), queue, Claimer(3, other, 0));
    var r, s, t := PlainRun(queue, Empty), NewStep(0, [], queue, Empty), NewStep(1, [], queue, Empty);
    var s2 := ClaimedStep(s, false, Claimer(2, worker, 0));
    DuoWell(run, a, b, [], queue);
    SiblingsEnqueued(run, a, b, queue);
    Extended([], EMPTY, op1);
    assert [] + [op1] == [op1];
    FirstIsNext(run, a, b, r, s, t, [], queue, Claimer(2, worker, 0));
    FirstClaims(run, a, b, r, s, t, [], queue, Claimer(2, worker, 0));
    Extended([op1], PairDb(run, a, b, r, s, t, []), op2);
    SecondIsNext(run, a, b, ClaimedRun(r, 2), s2, t, [], queue, Claimer(3, other, 0));
    SecondClaims(run, a, b, ClaimedRun(r, 2), s2, t, [], queue, Claimer(3, other, 0));
    Extended([op1] + [op2], PairDb(run, a, b, ClaimedRun(r, 2), s2, t, []), op3);
  }

  lemma LostWhileShared(front: seq<Op>, run: Str, a: Str, b: Str, r: Run, s: Step, t: Step, worker: Str)
    requires a != b && r.status.Running? && !r.ephemeral
    requires Disruptions.HeldBy(s, worker) && t.status.Running? && t.worker != worker
    requires Legal(front) && Clock(front) == 3 && Exec(front) == PairDb(run, a, b, r, s, t, [])
    ensures var mid := front + [WorkerClosed(worker, 4)];
      Legal(mid) && Clock(mid) == 4 && Exec(mid) == PairDb(run, a, b, r, Lost(s), t, [])
  {
    FirstLost(run, a, b, r, s, t, worker, 4);
    Extended(front, PairDb(run, a, b, r, s, t, []), WorkerClosed(worker, 4));
  }

  lemma DoneWithoutFirst(mid: seq<Op>, run: Str, a: Str, b: Str, r: Run, s: Step, t: Step, output: Str)
    requires a != b && r.status.Running? && !r.ephemeral && s.status.Interrupted? && t.status.Running?
    requires Legal(mid) && Clock(mid) == 4 && Exec(mid) == PairDb(run, a, b, r, s, t, [])
    ensures var ops := mid + [StepDone(StepId(run, b), output, 5)]; Legal(ops) && SucceedsWithout(Exec(ops), run, StepId(run, a))
  {
    SecondDone(run, a, b, r, s, t, output, 5);
    Extended(mid, PairDb(run, a, b, r, s, t, []), StepDone(StepId(run, b), output, 5));
  }

  lemma NotWhole(run: Str, a: Str, b: Str, r: Run, s: Step, t: Step)
    requires a != b && s.status.Interrupted?
    ensures !Outcomes.Whole(PairDb(run, a, b, r, s, t, []), run)
  {
    assert StepId(run, a) in PairDb(run, a, b, r, s, t, []).steps;
  }

  // One worker closes, the other completes its step: the run is SUCCEEDED and the step
  // of the first INTERRUPTED.
  lemma SuccessWithoutAStep(run: Str, a: Str, b: Str, queue: Str, worker: Str, other: Str, output: Str)
    requires a != b && worker != other
    ensures var mid := SharedPrefix(run, a, b, queue, worker, other) + [WorkerClosed(worker, 4)];
      var ops := mid + [StepDone(StepId(run, b), output, 5)];
      Legal(ops) && SucceedsWithout(Exec(ops), run, StepId(run, a)) && !Outcomes.Whole(Exec(mid), run)
  {
    var s, t := ClaimedStep(NewStep(0, [], queue, Empty), false, Claimer(2, worker, 0)),
      ClaimedStep(NewStep(1, [], queue, Empty), false, Claimer(3, other, 0));
    SharedRuns(run, a, b, queue, worker, other);
    var front := SharedPrefix(run, a, b, queue, worker, other);
    LostWhileShared(front, run, a, b, SharedRun(queue), s, t, worker);
    DoneWithoutFirst(front + [WorkerClosed(worker, 4)], run, a, b, SharedRun(queue), Lost(s), t, output);
    NotWhole(run, a, b, SharedRun(queue), Lost(s), t);
  }

  // ---- a paused run that is swept, or booted -----------------------------------------------------

  function Paused(r: Run, now: int): Run {
    r.(status := Status.Paused, pausedAt := now)
  }

  function PausedPrefix(run: Str, name: Str, queue: Str, key: Str): seq<Op> {
    Started(run, name, queue, key, At(2)) + [RunPaused(run, 3)]
  }

  lemma PausedAlone(run: Str, name: Str, r: Run, s: Step, now: int)
    requires !IsTerminal(r.status) && !r.status.Paused?
    ensures PauseRun(Alone(run, name, r, s, 1), run, now) == Alone(run, name, Paused(r, now), s, 1)
  {
  }

  lemma PausedRuns(run: Str, name: Str, queue: Str, key: Str)
    requires key != Empty
    ensures var ops := PausedPrefix(run, name, queue, key);
      && Legal(ops) && Clock(ops) == 3
      && Exec(ops) == Alone(run, name, Paused(ClaimedRun(NumberedRun(queue, key, 1), 2), 3),
                            ClaimedStep(Numbered1(queue, key, 1), false, At(2)), 1)
  {
    var r, x := ClaimedRun(NumberedRun(queue, key, 1), 2), ClaimedStep(Numbered1(queue, key, 1), false, At(2));
    StartedRuns(run, name, queue, key, At(2));
    PausedAlone(run, name, r, x, 3);
    Extended(Started(run, name, queue, key, At(2)), Alone(run, name, r, x, 1), RunPaused(run, 3));
  }

  lemma PausedSwept(run: Str, name: Str, r: Run, s: Step, now: int)
    requires r.status.Paused? && s.status.Running?
    ensures var db := Alone(run, name, r, s, 1);
      && Live(InterruptAll(db, now), run) && !Disruptions.SweepSpares(db, run)
      && forall id | id in InterruptAll(db, now).steps :: InterruptAll(db, now).steps[id].status.Interrupted?
  {
    assert StepId(run, name) in Alone(run, name, r, s, 1).steps;
  }

  // The process closes while a step of a PAUSED run executes: the run stays live and its
  // only step is INTERRUPTED.
  lemma SweepLeavesPausedRunStuck(run: Str, name: Str, queue: Str, key: Str)
    requires key != Empty
    ensures var front := PausedPrefix(run, name, queue, key);
      var ops := front + [Op.Interrupted(4)];
      && Legal(ops) && Live(Exec(ops), run) && !Disruptions.SweepSpares(Exec(front), run)
      && forall id | id in Exec(ops).steps :: Exec(ops).steps[id].status.Interrupted?
  {
    PausedRuns(run, name, queue, key);
    var r, s := Paused(ClaimedRun(NumberedRun(queue, key, 1), 2), 3), ClaimedStep(Numbered1(queue, key, 1), false, At(2));
    Extended(PausedPrefix(run, name, queue, key), Alone(run, name, r, s, 1), Op.Interrupted(4));
    PausedSwept(run, name, r, s, 4);
  }

  lemma PausedBooted(run: Str, name: Str, r: Run, s: Step, reason: Str, now: int)
    requires r.status.Paused? && s.status.Running? && !r.ephemeral
    ensures var db := Alone(run, name, r, s, 1);
      && Live(Recover(db, false, reason, now), run) && !Disruptions.BootSpares(db, false, run)
      && forall id | id in Recover(db, false, reason, now).steps :: Recover(db, false, reason, now).steps[id].status.Failed?
  {
    assert StepId(run, name) in Alone(run, name, r, s, 1).steps;
  }

  // It crashes instead, and the next one fails what it finds: the run stays live with
  // its only step FAILED.
  lemma BootLeavesPausedRunStuck(run: Str, name: Str, queue: Str, key: Str, reason: Str)
    requires key != Empty
    ensures var front := PausedPrefix(run, name, queue, key);
      var ops := front + [Rebooted(false, false, reason, 4)];
      && Legal(ops) && Live(Exec(ops), run) && !Disruptions.BootSpares(Exec(front), false, run)
      && forall id | id in Exec(ops).steps :: Exec(ops).steps[id].status.Failed?
  {
    PausedRuns(run, name, queue, key);
    var r, s := Paused(ClaimedRun(NumberedRun(queue, key, 1), 2), 3), ClaimedStep(Numbered1(queue, key, 1), false, At(2));
    Extended(PausedPrefix(run, name, queue, key), Alone(run, name, r, s, 1), Rebooted(false, false, reason, 4));
    PausedBooted(run, name, r, s, reason, 4);
  }

  // ---- a boot on a dependency that failed late -----------------------------------------------------

  lemma FirstReaped(run: Str, a: Str, b: Str, r: Run, s: Step, t: Step, now: int)
    requires a != b && !IsTerminal(r.status) && s.status.Running? && 0 < s.lease < now && t.status.Blocked?
    ensures Reap(PairDb(run, a, b, r, s, t, []), {StepId(run, a)}, now)
      == PairDb(run, a, b, r, s.(status := Queued, runAt := now, worker := Empty, lease := 0), t, [])
  {
    var db := PairDb(run, a, b, r, s, t, []);
    assert Expired(db, StepId(run, a), now);
  }

  lemma FirstIsOnly(run: Str, a: Str, b: Str, r: Run, s: Step, t: Step, queue: Str, c: Claimer)
    requires a != b && ReadyStep(s, queue, c.now) && t.status.Blocked? && !r.status.Paused?
    ensures Enabled(PairDb(run, a, b, r, s, t, []), ClaimNext(StepId(run, a), queue, c))
  {
    var db, id := PairDb(run, a, b, r, s, t, []), StepId(run, a);
    assert forall i :: Due(db, QueueClaim(queue, 1, 0, 0), i, c.now, {}) <==> i == id;
  }

  function Done(s: Step, output: Str): Step {
    s.(status := Succeeded, output := output, error := Empty)
  }

  lemma DependentUnblocked(run: Str, a: Str, b: Str, s: Step, t: Step, output: Str)
    requires a != b && t.status.Blocked? && t.deps == [a]
    ensures Unblocked(map[StepId(run, a) := Done(s, output), StepId(run, b) := t], run, a) == {b}
  {
    var steps := map[StepId(run, a) := Done(s, output), StepId(run, b) := t];
    assert StepId(run, b) in steps && DepsSucceeded(steps, StepId(run, b));
    assert b in Unblocked(steps, run, a);
  }

  lemma DependentQueued(run: Str, a: Str, b: Str, s: Step, t: Step, now: int)
    requires a != b
    ensures QueueSteps(map[StepId(run, a) := s, StepId(run, b) := t], run, {b}, now)
      == map[StepId(run, a) := s, StepId(run, b) := t.(status := Queued, runAt := now)]
  {
  }

  lemma PairHasTwo(run: Str, a: Str, b: Str, r: Run, s: Step, t: Step)
    requires a != b
    ensures |StepsOf(PairDb(run, a, b, r, s, t, []).steps, run)| == 2
  {
    assert StepsOf(PairDb(run, a, b, r, s, t, []).steps, run) == {StepId(run, a), StepId(run, b)};
  }

  lemma FirstDone(run: Str, a: Str, b: Str, r: Run, s: Step, t: Step, output: Str, now: int)
    requires a != b && !IsTerminal(r.status) && s.status.Running? && t.status.Blocked? && t.deps == [a]
    ensures Apply(PairDb(run, a, b, r, s, t, []), StepDone(StepId(run, a), output, now))
      == PairDb(run, a, b, r, Done(s, output), t.(status := Queued, runAt := now), [])
  {
    var db, db1 := PairDb(run, a, b, r, s, t, []), PairDb(run, a, b, r, Done(s, output), t.(status := Queued, runAt := now), []);
    PairHasTwo(run, a, b, r, s, t);
    assert SucceedStep(db.steps, StepId(run, a), output) == map[StepId(run, a) := Done(s, output), StepId(run, b) := t];
    DependentUnblocked(run, a, b, s, t, output);
    DependentQueued(run, a, b, Done(s, output), t, now);
    assert StepId(run, b) in db1.steps && AnyActive(db1.steps, run);
  }

  lemma SecondLostSteps(run: Str, a: Str, b: Str, r: Run, s: Step, t: Step, worker: Str, now: int)
    requires a != b && !r.ephemeral && !s.status.Running? && Disruptions.HeldBy(t, worker)
    ensures var db1 := InterruptWorker(PairDb(run, a, b, r, s, t, []), worker, now);
      db1.steps == map[StepId(run, a) := s, StepId(run, b) := Lost(t)] && db1.journal == map[]
  {
  }

  lemma NoneActive(db: Db, worker: Str, now: int, run: Str, id: StepId)
    requires Rows(db) && run in db.runs && db.runs[run].status.Running? && !db.runs[run].ephemeral
    requires id in db.steps && id.run == run && Disruptions.HeldBy(db.steps[id], worker)
    requires forall j | j in db.steps && j.run == run && j != id :: !IsActive(db.steps[j].status)
    ensures run in InterruptWorker(db, worker, now).runs && InterruptWorker(db, worker, now).runs[run] == InterruptedRun(db.runs[run], now)
  {
    assert run in RunsOfWorker(db, worker);
  }

  lemma OneRunLeft(db: Db, worker: Str, now: int, run: Str)
    requires db.runs.Keys == {run} && run in InterruptWorker(db, worker, now).runs
    ensures var db1 := InterruptWorker(db, worker, now);
      db1 == Db(map[run := db1.runs[run]], db1.steps, db1.journal, db.next, db.pausedQueues)
  {
    assert InterruptWorker(db, worker, now).runs.Keys == {run};
  }

  lemma RunLost(run: Str, a: Str, b: Str, r: Run, s: Step, t: Step, worker: Str, now: int)
    requires a != b && r.status.Running? && !r.ephemeral && s.status.Succeeded? && Disruptions.HeldBy(t, worker)
    ensures var db1 := InterruptWorker(PairDb(run, a, b, r, s, t, []), worker, now);
      db1 == Db(map[run := InterruptedRun(r, now)], db1.steps, db1.journal, 0, {})
  {
    var db := PairDb(run, a, b, r, s, t, []);
    NoneActive(db, worker, now, run, StepId(run, b));
    OneRunLeft(db, worker, now, run);
  }

  lemma SecondLost(run: Str, a: Str, b: Str, r: Run, s: Step, t: Step, worker: Str, now: int)
    requires a != b && r.status.Running? && !r.ephemeral && s.status.Succeeded? && Disruptions.HeldBy(t, worker)
    ensures InterruptWorker(PairDb(run, a, b, r, s, t, []), worker, now) == PairDb(run, a, b, InterruptedRun(r, now), s, Lost(t), [])
  {
    SecondLostSteps(run, a, b, r, s, t, worker, now);
    RunLost(run, a, b, r, s, t, worker, now);
  }

  lemma FirstFailsLate(run: Str, a: Str, b: Str, r: Run, s: Step, t: Step, error: Str, now: int)
    requires a != b && IsTerminal(r.status) && !r.ephemeral && t.status.Interrupted?
    ensures FinalFail(PairDb(run, a, b, r, s, t, []), StepId(run, a), error, false, now)
      == PairDb(run, a, b, r, FailedStep(s, true, error), t, [])
  {
  }

  predicate StartsOnFailed(db: Db, id: StepId, d: StepId) {
    && Live(db, id.run) && id in db.steps && IsStarted(db.steps[id].status) && d.name in db.steps[id].deps
    && d in db.steps && db.steps[d].status.Failed? && d.run == id.run
  }

  lemma BootOnFailed(db: Db, id: StepId, d: StepId, reason: Str, now: int)
    requires Rows(db) && id in db.steps && d in db.steps && d.run == id.run && d.name in db.steps[id].deps
    requires db.runs[id.run].status.Interrupted? && !db.runs[id.run].ephemeral
    requires db.steps[id].status.Interrupted? && db.steps[d].status.Failed?
    ensures StartsOnFailed(Reboot(db, false, true, reason, now), id, d)
  {
    BootRow(db, false, true, reason, now, id);
    BootRow(db, false, true, reason, now, d);
    BootRun(db, false, true, reason, now, id.run);
  }

  lemma LostBooted(run: Str, a: Str, b: Str, r: Run, s: Step, t: Step, reason: Str, now: int)
    requires a != b && r.status.Interrupted? && !r.ephemeral && s.status.Failed? && t.status.Interrupted? && t.deps == [a]
    ensures var db := PairDb(run, a, b, r, s, t, []);
      && !BootHolds(db, true, run)
      && StartsOnFailed(Reboot(db, false, true, reason, now), StepId(run, b), StepId(run, a))
  {
    var db := PairDb(run, a, b, r, s, t, []);
    BootOnFailed(db, StepId(run, b), StepId(run, a), reason, now);
    assert StepId(run, b) in db.steps && !DepsSucceeded(db.steps, StepId(run, b));
  }

  // A lease runs out, the step is claimed and completed by another worker, and its
  // dependent starts there.
  function DoneTwice(run: Str, a: Str, b: Str, queue: Str, slow: Str, worker: Str, output: Str): seq<Op>
    requires a != b
  {
    SweepPrefix(run, a, b, queue, slow) + [LeasesReaped({StepId(run, a)}, 10)] + [ClaimNext(StepId(run, a), queue, Claimer(11, worker, 0))]
    + [StepDone(StepId(run, a), output, 12)] + [ClaimNext(StepId(run, b), queue, Claimer(13, worker, 0))]
  }

  // That worker closes, and only then the first executor reports that it failed.
  function FailsLate(front: seq<Op>, run: Str, a: Str, worker: Str, error: Str): seq<Op> {
    front + [WorkerClosed(worker, 14)] + [StepFailed(StepId(run, a), error, false, 15)]
  }

  lemma ReapedAndDone(front: seq<Op>, run: Str, a: Str, b: Str, r: Run, s: Step, t: Step, queue: Str, worker: Str, output: Str)
    requires a != b && r.status.Running? && s.status.Running? && s.lease == 9 && ReadyStep(s.(status := Queued, runAt := 10), queue, 11)
    requires t.status.Blocked? && t.deps == [a]
    requires Legal(front) && Clock(front) == 2 && Exec(front) == PairDb(run, a, b, r, s, t, [])
    ensures var ops := front + [LeasesReaped({StepId(run, a)}, 10)] + [ClaimNext(StepId(run, a), queue, Claimer(11, worker, 0))]
        + [StepDone(StepId(run, a), output, 12)];
      var s1 := ClaimedStep(s.(status := Queued, runAt := 10, worker := Empty, lease := 0), false, Claimer(11, worker, 0));
      && Legal(ops) && Clock(ops) == 12
      && Exec(ops) == PairDb(run, a, b, r, Done(s1, output), t.(status := Queued, runAt := 12), [])
  {
    var op1, op2 := LeasesReaped({StepId(run, a)}, 10), ClaimNext(StepId(run, a), queue, Claimer(11, worker, 0));
    var s0 := s.(status := Queued, runAt := 10, worker := Empty, lease := 0);
    var s1 := ClaimedStep(s0, false, Claimer(11, worker, 0));
    FirstReaped(run, a, b, r, s, t, 10);
    Extended(front, PairDb(run, a, b, r, s, t, []), op1);
    FirstIsOnly(run, a, b, r, s0, t, queue, Claimer(11, worker, 0));
    FirstClaims(run, a, b, r, s0, t, [], queue, Claimer(11, worker, 0));
    Extended(front + [op1], PairDb(run, a, b, r, s0, t, []), op2);
    FirstDone(run, a, b, r, s1, t, output, 12);
    Extended(front + [op1] + [op2], PairDb(run, a, b, r, s1, t, []), StepDone(StepId(run, a), output, 12));
  }

  lemma LostAndFailed(front: seq<Op>, run: Str, a: Str, b: Str, r: Run, s: Step, t: Step, queue: Str, worker: Str, error: Str)
    requires a != b && r.status.Running? && !r.ephemeral && s.status.Succeeded? && ReadyStep(t, queue, 13)
    requires Legal(front) && Clock(front) == 12 && Exec(front) == PairDb(run, a, b, r, s, t, [])
    ensures var ops := FailsLate(front + [ClaimNext(StepId(run, b), queue, Claimer(13, worker, 0))], run, a, worker, error);
      && Legal(ops) && Clock(ops) == 15
      && Exec(ops) == PairDb(run, a, b, InterruptedRun(r, 14), FailedStep(s, true, error), Lost(ClaimedStep(t, false, Claimer(13, worker, 0))), [])
  {
    var op1, op2 := ClaimNext(StepId(run, b), queue, Claimer(13, worker, 0)), WorkerClosed(worker, 14);
    var t1 := ClaimedStep(t, false, Claimer(13, worker, 0));
    SecondIsNext(run, a, b, r, s, t, [], queue, Claimer(13, worker, 0));
    SecondClaims(run, a, b, r, s, t, [], queue, Claimer(13, worker, 0));
    Extended(front, PairDb(run, a, b, r, s, t, []), op1);
    SecondLost(run, a, b, r, s, t1, worker, 14);
    Extended(front + [op1], PairDb(run, a, b, r, s, t1, []), op2);
    FirstFailsLate(run, a, b, InterruptedRun(r, 14), s, Lost(t1), error, 15);
    Extended(front + [op1] + [op2], PairDb(run, a, b, InterruptedRun(r, 14), s, Lost(t1), []), StepFailed(StepId(run, a), error, false, 15));
  }

  lemma StartedPairDb(run: Str, a: Str, b: Str, queue: Str, slow: Str)
    requires a != b
    ensures StartedPair(run, a, b, queue, slow)
      == PairDb(run, a, b, ClaimedRun(PlainRun(queue, Empty), 2), ClaimedStep(NewStep(0, [], queue, Empty), false, Claimer(2, slow, 9)),
                NewStep(1, [a], queue, Empty), [])
  {
  }

  lemma FailedBooted(front: seq<Op>, run: Str, a: Str, b: Str, r: Run, s: Step, t: Step, reason: Str)
    requires a != b && r.status.Interrupted? && !r.ephemeral && s.status.Failed? && t.status.Interrupted? && t.deps == [a]
    requires Legal(front) && Clock(front) == 15 && Exec(front) == PairDb(run, a, b, r, s, t, [])
    ensures var ops := front + [Rebooted(false, true, reason, 16)];
      && Legal(ops) && !BootHolds(Exec(front), true, run)
      && StartsOnFailed(Exec(ops), StepId(run, b), StepId(run, a))
  {
    LostBooted(run, a, b, r, s, t, reason, 16);
    Extended(front, PairDb(run, a, b, r, s, t, []), Rebooted(false, true, reason, 16));
  }

  // The next boot requeues the dependent, in a live run, on a dependency that FAILED.
  lemma BootStartsOnFailed(run: Str, a: Str, b: Str, queue: Str, slow: Str, worker: Str, output: Str, error: Str, reason: Str)
    requires a != b
    ensures var front := FailsLate(DoneTwice(run, a, b, queue, slow, worker, output), run, a, worker, error);
      var ops := front + [Rebooted(false, true, reason, 16)];
      && Legal(ops) && !BootHolds(Exec(front), true, run)
      && StartsOnFailed(Exec(ops), StepId(run, b), StepId(run, a))
  {
    var r, s, t := ClaimedRun(PlainRun(queue, Empty), 2), ClaimedStep(NewStep(0, [], queue, Empty), false, Claimer(2, slow, 9)),
      NewStep(1, [a], queue, Empty);
    var s1, t1 := Done(ClaimedStep(s.(status := Queued, runAt := 10, worker := Empty, lease := 0), false, Claimer(11, worker, 0)), output),
      t.(status := Queued, runAt := 12);
    var front := FailsLate(DoneTwice(run, a, b, queue, slow, worker, output), run, a, worker, error);
    PrefixRuns(run, a, b, queue, slow);
    StartedPairDb(run, a, b, queue, slow);
    ReapedAndDone(SweepPrefix(run, a, b, queue, slow), run, a, b, r, s, t, queue, worker, output);
    LostAndFailed(SweepPrefix(run, a, b, queue, slow) + [LeasesReaped({StepId(run, a)}, 10)]
                  + [ClaimNext(StepId(run, a), queue, Claimer(11, worker, 0))] + [StepDone(StepId(run, a), output, 12)],
                  run, a, b, r, s1, t1, queue, worker, error);
    FailedBooted(front, run, a, b, InterruptedRun(r, 14), FailedStep(s1, true, error),
                 Lost(ClaimedStep(t1, false, Claimer(13, worker, 0))), reason);
  }

  // ---- a cancelled run that executes again ---------------------------------------------------------

  lemma AloneCancelled(run: Str, name: Str, r: Run, s: Step, now: int)
    requires !IsTerminal(r.status) && !r.ephemeral && s.status.Running?
    ensures CancelRun(Alone(run, name, r, s, 1), run, now) == Alone(run, name, CancelledRun(r, now), s, 1)
  {
  }

  lemma AloneBooted(run: Str, name: Str, r: Run, s: Step, reason: Str, now: int)
    requires r.status.Cancelled? && !r.ephemeral && s.status.Running?
    ensures Reboot(Alone(run, name, r, s, 1), false, true, reason, now)
      == Alone(run, name, r, s.(status := Queued, runAt := now, resumeAt := 0, wait := NoWait), 1)
  {
    var db := Alone(run, name, r, s, 1);
    var db1 := Reboot(db, false, true, reason, now);
    assert db1.steps == map[StepId(run, name) := s.(status := Queued, runAt := now, resumeAt := 0, wait := NoWait)];
    assert db1.runs == map[run := r];
  }

  lemma CancelledWhileRunning(front: seq<Op>, run: Str, name: Str, r: Run, s: Step)
    requires !IsTerminal(r.status) && !r.ephemeral && s.status.Running?
    requires Legal(front) && Clock(front) == 2 && Exec(front) == Alone(run, name, r, s, 1)
    ensures var ops := front + [RunCancelled(run, 3)];
      Legal(ops) && Clock(ops) == 3 && Exec(ops) == Alone(run, name, CancelledRun(r, 3), s, 1)
  {
    AloneCancelled(run, name, r, s, 3);
    Extended(front, Alone(run, name, r, s, 1), RunCancelled(run, 3));
  }

  ghost predicate ExecutesCancelled(ops: seq<Op>, id: StepId) {
    Legal(ops) && id.run in Exec(ops).runs && Exec(ops).runs[id.run].status.Cancelled? && IsRunning(Exec(ops), id)
  }

  lemma BootedAndClaimed(front: seq<Op>, run: Str, name: Str, r: Run, s: Step, queue: Str, reason: Str)
    requires r.status.Cancelled? && !r.ephemeral && s.status.Running? && Claims(s.(status := Queued, runAt := 4), queue, 5)
    requires Legal(front) && Clock(front) == 3 && Exec(front) == Alone(run, name, r, s, 1)
    ensures ExecutesCancelled(front + [Rebooted(false, true, reason, 4)] + [ClaimIt(run, name, queue, At(5))], StepId(run, name))
  {
    var boot, s1 := Rebooted(false, true, reason, 4), s.(status := Queued, runAt := 4, resumeAt := 0, wait := NoWait);
    AloneBooted(run, name, r, s, reason, 4);
    Extended(front, Alone(run, name, r, s, 1), boot);
    AloneClaimed(run, name, r, s1, 1, queue, At(5));
    Extended(front + [boot], Alone(run, name, r, s1, 1), ClaimIt(run, name, queue, At(5)));
  }

  // The run is cancelled while its step executes, the process crashes, the next one
  // requeues the step, and it is claimed.
  function CrashedWith(front: seq<Op>, run: Str, name: Str, queue: Str, reason: Str): seq<Op> {
    front + [RunCancelled(run, 3)] + [Rebooted(false, true, reason, 4)] + [ClaimIt(run, name, queue, At(5))]
  }

  lemma CrashedExecutes(front: seq<Op>, run: Str, name: Str, r: Run, s: Step, queue: Str, reason: Str)
    requires !IsTerminal(r.status) && !r.ephemeral && s.status.Running? && Claims(s.(status := Queued, runAt := 4), queue, 5)
    requires Legal(front) && Clock(front) == 2 && Exec(front) == Alone(run, name, r, s, 1)
    ensures ExecutesCancelled(CrashedWith(front, run, name, queue, reason), StepId(run, name))
  {
    CancelledWhileRunning(front, run, name, r, s);
    BootedAndClaimed(front + [RunCancelled(run, 3)], run, name, CancelledRun(r, 3), s, queue, reason);
  }

  // So a cancelled run executes.
  lemma BootRunsCancelled(run: Str, name: Str, queue: Str, key: Str, reason: Str)
    requires key != Empty
    ensures ExecutesCancelled(CrashedWith(Started(run, name, queue, key, At(2)), run, name, queue, reason), StepId(run, name))
  {
    var r, s := ClaimedRun(NumberedRun(queue, key, 1), 2), ClaimedStep(Numbered1(queue, key, 1), false, At(2));
    StartedRuns(run, name, queue, key, At(2));
    CrashedExecutes(Started(run, name, queue, key, At(2)), run, name, r, s, queue, reason);
  }

  // ---- a boot out of turn ---------------------------------------------------------------------------

  function LostPrefix(run: Str, name: Str, queue: Str, key: Str, worker: Str): seq<Op> {
    Started(run, name, queue, key, Claimer(2, worker, 0)) + [WorkerClosed(worker, 3)]
  }

  function BootPrefix(run1: Str, run2: Str, name: Str, queue: Str, key: Str, worker: Str): seq<Op> {
    LostPrefix(run1, name, queue, key, worker) + [EnqueueRun(OneStep(run2, name, queue, key), 4)] + [ClaimIt(run2, name, queue, At(5))]
  }

  lemma AloneLost(run: Str, name: Str, r: Run, s: Step, worker: Str, now: int)
    requires r.status.Running? && !r.ephemeral && Disruptions.HeldBy(s, worker)
    ensures InterruptWorker(Alone(run, name, r, s, 1), worker, now) == Alone(run, name, InterruptedRun(r, now), Lost(s), 1)
  {
    var db := Alone(run, name, r, s, 1);
    assert RunsOfWorker(db, worker) == {run};
    var db1 := InterruptWorker(db, worker, now);
    assert db1.steps == map[StepId(run, name) := Lost(s)];
    assert db1.runs == map[run := InterruptedRun(r, now)];
  }

  lemma FirstLostAlone(run: Str, name: Str, queue: Str, key: Str, worker: Str)
    requires key != Empty
    ensures var ops := LostPrefix(run, name, queue, key, worker);
      && Legal(ops) && Clock(ops) == 3
      && Exec(ops) == Alone(run, name, InterruptedRun(ClaimedRun(NumberedRun(queue, key, 1), 2), 3),
                            Lost(ClaimedStep(Numbered1(queue, key, 1), false, Claimer(2, worker, 0))), 1)
  {
    var r, x := ClaimedRun(NumberedRun(queue, key, 1), 2), ClaimedStep(Numbered1(queue, key, 1), false, Claimer(2, worker, 0));
    StartedRuns(run, name, queue, key, Claimer(2, worker, 0));
    AloneLost(run, name, r, x, worker, 3);
    Extended(Started(run, name, queue, key, Claimer(2, worker, 0)), Alone(run, name, r, x, 1), WorkerClosed(worker, 3));
  }

  predicate WaitsBehind(db: Db, i: StepId, j: StepId) {
    && i in db.steps && j in db.steps && IsActive(db.steps[i].status)
    && Sequence.Before(db.steps[i], db.steps[j]) && Sequence.Begun(db.steps[j])
  }

  lemma BothBooted(run1: Str, run2: Str, name: Str, r1: Run, x: Step, r2: Run, y: Step, reason: Str, now: int)
    requires run1 != run2 && !r1.ephemeral && !r2.ephemeral && x.status.Interrupted? && y.status.Running?
    requires Sequence.Before(x, y) && Sequence.Begun(y)
    ensures var db := Both(run1, run2, name, r1, x, r2, y, 2);
      && !Sequence.BootsInTurn(db, true)
      && WaitsBehind(Reboot(db, false, true, reason, now), StepId(run1, name), StepId(run2, name))
  {
    var db, i, j := Both(run1, run2, name, r1, x, r2, y, 2), StepId(run1, name), StepId(run2, name);
    assert db.steps[i] == x && db.steps[j] == y && Sequence.Lasting(db, i) && Sequence.Lasting(db, j);
  }

  lemma BootsBehind(front: seq<Op>, run1: Str, run2: Str, name: Str, r1: Run, x: Step, r2: Run, y: Step, reason: Str)
    requires run1 != run2 && !r1.ephemeral && !r2.ephemeral && x.status.Interrupted? && y.status.Running?
    requires Sequence.Before(x, y) && Sequence.Begun(y)
    requires Legal(front) && Clock(front) == 5 && Exec(front) == Both(run1, run2, name, r1, x, r2, y, 2)
    ensures var ops := front + [Rebooted(false, true, reason, 6)];
      && Legal(ops) && !Sequence.BootsInTurn(Exec(front), true)
      && WaitsBehind(Exec(ops), StepId(run1, name), StepId(run2, name))
  {
    BothBooted(run1, run2, name, r1, x, r2, y, reason, 6);
    Extended(front, Both(run1, run2, name, r1, x, r2, y, 2), Rebooted(false, true, reason, 6));
  }

  // The first run of a sequence is interrupted and the second starts; the next boot
  // requeues the first, which now waits behind a run that has begun.
  lemma BootBreaksOrder(run1: Str, run2: Str, name: Str, queue: Str, key: Str, worker: Str, reason: Str)
    requires run1 != run2 && key != Empty
    ensures var front := BootPrefix(run1, run2, name, queue, key, worker);
      var ops := front + [Rebooted(false, true, reason, 6)];
      && Legal(ops) && !Sequence.BootsInTurn(Exec(front), true)
      && WaitsBehind(Exec(ops), StepId(run1, name), StepId(run2, name))
  {
    var r1, x := InterruptedRun(ClaimedRun(NumberedRun(queue, key, 1), 2), 3),
      Lost(ClaimedStep(Numbered1(queue, key, 1), false, Claimer(2, worker, 0)));
    var r2, y := ClaimedRun(NumberedRun(queue, key, 2), 5), ClaimedStep(Numbered1(queue, key, 2), false, At(5));
    FirstLostAlone(run1, name, queue, key, worker);
    SecondRuns(LostPrefix(run1, name, queue, key, worker), run1, run2, name, r1, x, queue, key);
    BootsBehind(BootPrefix(run1, run2, name, queue, key, worker), run1, run2, name, r1, x, r2, y, reason);
  }

  // ---- a run without a number -------------------------------------------------------------------------

  // Only the second step of the run has the key, so the run takes no number.
  function Late(run: Str, a: Str, b: Str, queue: Str, other: Str, key: Str): NewRun
    requires a != b
  {
    Plain(run, other, Empty, map[a := NewStep(0, [], other, Empty), b := NewStep(1, [], queue, key)])
  }

  lemma LateWell(run: Str, a: Str, b: Str, queue: Str, other: Str, key: Str)
    requires a != b
    ensures WellFormed(Late(run, a, b, queue, other, key))
  {
    var n := Late(run, a, b, queue, other, key);
    DuoRanked(a, b, []);
    assert DepsOf(n.steps) == map[a := [], b := []];
    assert WellFormedStep(n.steps[a]) && WellFormedStep(n.steps[b]);
  }

  function Three(run1: Str, run2: Str, a: Str, b: Str, r1: Run, x: Step, r2: Run, s: Step, t: Step): Db {
    Db(map[run1 := r1, run2 := r2], map[StepId(run1, a) := x, StepId(run2, a) := s, StepId(run2, b) := t], map[], 1, {})
  }

  lemma LateEnqueued(run1: Str, run2: Str, a: Str, b: Str, r1: Run, x: Step, queue: Str, other: Str, key: Str)
    requires run1 != run2 && a != b
    ensures Apply(Alone(run1, a, r1, x, 1), EnqueueRun(Late(run2, a, b, queue, other, key), 3))
      == Three(run1, run2, a, b, r1, x, PlainRun(other, Empty), NewStep(0, [], other, Empty), NewStep(1, [], queue, key))
  {
    var db, n := Alone(run1, a, r1, x, 1), Late(run2, a, b, queue, other, key);
    PlainEnqueued(db, n, Empty, other, 3);
    assert Inserted(db, n).steps == map[StepId(run1, a) := x, StepId(run2, a) := n.steps[a], StepId(run2, b) := n.steps[b]];
  }

  lemma LateDue(run1: Str, run2: Str, a: Str, b: Str, r1: Run, x: Step, r2: Run, s: Step, t: Step, queue: Str, now: int)
    requires run1 != run2 && a != b && x.status.Running? && s.queue != queue && Claims(t, queue, now) && !r2.status.Paused?
    requires t.seqNo < x.seqNo && s.seqKey == Empty
    ensures var db, id := Three(run1, run2, a, b, r1, x, r2, s, t), StepId(run2, b);
      Claimable(db, id, false, now) && forall j :: Due(db, Slots(queue), j, now, {}) <==> j == id
  {
  }

  lemma LateClaimed(run1: Str, run2: Str, a: Str, b: Str, r1: Run, x: Step, r2: Run, s: Step, t: Step, queue: Str, now: int)
    requires run1 != run2 && a != b && x.status.Running? && s.queue != queue && Claims(t, queue, now) && !r2.status.Paused?
    requires t.seqNo < x.seqNo && s.seqKey == Empty && t.seqKey == x.seqKey
    ensures var db := Three(run1, run2, a, b, r1, x, r2, s, t);
      && Enabled(db, ClaimIt(run2, b, queue, At(now)))
      && RunTogether(Apply(db, ClaimIt(run2, b, queue, At(now))), StepId(run1, a), StepId(run2, b), x.seqKey)
  {
    var db, id := Three(run1, run2, a, b, r1, x, r2, s, t), StepId(run2, b);
    LateDue(run1, run2, a, b, r1, x, r2, s, t, queue, now);
    OneClaimed(db, Candidate(id, false), At(now));
  }

  lemma LateRuns(front: seq<Op>, run1: Str, run2: Str, a: Str, b: Str, r1: Run, x: Step, queue: Str, other: Str, key: Str)
    requires run1 != run2 && a != b && queue != other && key != Empty
    requires x.status.Running? && x.seqKey == key && x.seqNo > 0 && Sequence.Begun(x)
    requires Legal(front) && Clock(front) == 2 && Exec(front) == Alone(run1, a, r1, x, 1)
    ensures var n := Late(run2, a, b, queue, other, key);
      var ops := front + [EnqueueRun(n, 3)] + [ClaimIt(run2, b, queue, At(4))];
      && Legal(ops) && !Sequence.UnnumberedInTurn(Exec(front), n)
      && RunTogether(Exec(ops), StepId(run1, a), StepId(run2, b), key)
  {
    var n, r2, s, t := Late(run2, a, b, queue, other, key), PlainRun(other, Empty), NewStep(0, [], other, Empty), NewStep(1, [], queue, key);
    LateWell(run2, a, b, queue, other, key);
    LateEnqueued(run1, run2, a, b, r1, x, queue, other, key);
    Extended(front, Alone(run1, a, r1, x, 1), EnqueueRun(n, 3));
    LateClaimed(run1, run2, a, b, r1, x, r2, s, t, queue, 4);
    Extended(front + [EnqueueRun(n, 3)], Three(run1, run2, a, b, r1, x, r2, s, t), ClaimIt(run2, b, queue, At(4)));
    OutOfTurnInsert(run1, a, r1, x, n, b);
  }

  // A run whose first step has no sequence key takes no number: its keyed step starts
  // while a numbered one executes.
  lemma UnnumberedBreaksOrder(run1: Str, run2: Str, a: Str, b: Str, queue: Str, other: Str, key: Str)
    requires run1 != run2 && a != b && queue != other && key != Empty
    ensures var front, n := Started(run1, a, queue, key, At(2)), Late(run2, a, b, queue, other, key);
      var ops := front + [EnqueueRun(n, 3)] + [ClaimIt(run2, b, queue, At(4))];
      && Legal(ops) && !Sequence.UnnumberedInTurn(Exec(front), n)
      && RunTogether(Exec(ops), StepId(run1, a), StepId(run2, b), key)
  {
    StartedRuns(run1, a, queue, key, At(2));
    LateRuns(Started(run1, a, queue, key, At(2)), run1, run2, a, b, ClaimedRun(NumberedRun(queue, key, 1), 2),
             ClaimedStep(Numbered1(queue, key, 1), false, At(2)), queue, other, key);
  }

  lemma OutOfTurnInsert(run: Str, name: Str, r: Run, x: Step, n: NewRun, b: Str)
    requires b in n.steps && n.steps[b].seqKey == x.seqKey != Empty && Sequence.Begun(x)
    ensures !Sequence.UnnumberedInTurn(Alone(run, name, r, x, 1), n)
  {
    var db := Alone(run, name, r, x, 1);
    assert db.steps[StepId(run, name)] == x;
    assert !Sequence.FitsUnnumbered(db, n.steps[b].seqKey);
  }
}
