// Enqueueing: unique-job resolution, sequence numbers, concurrency strategies
// and the insert, for one run (EnqueueOne) and for a batch (EnqueueAll).

module Enqueue {
  import opened Collections
  import opened Names
  import opened Dag
  import opened Schema
  import opened Transitions

  datatype Conflict = Reuse | Error | Replace

  datatype Strategy =
    | Hold | CancelInProgress | CancelNewest | CancelQueuedExceptNewest | CancelQueuedExceptOldest

  datatype Policy = Policy(key: Str, limit: int, strategy: Strategy)

  // A run built from an enqueue request, with its steps by name.
  datatype NewRun = NewRun(
    id: Str,
    run: Run,
    steps: map<Str, Step>,
    conflict: Conflict,
    policy: Policy)

  datatype Failure = DuplicateJob | UniqueViolation

  datatype Outcome =
    | Enqueued(db: Db, id: Str, replaced: seq<Str>)
    | Rejected(failure: Failure)

  // A run that takes a value from the insertion counter.
  predicate Sequenced(n: NewRun) {
    n.run.seqKey != Empty || n.policy.key != Empty
  }

  // run.Seq and the copies of it on the run's steps.
  function Stamped(n: NewRun, seqNo: int): NewRun {
    if Sequenced(n) then
      n.(run := n.run.(seqNo := seqNo),
         steps := map name | name in n.steps :: n.steps[name].(seqKey := n.run.seqKey, seqNo := seqNo))
    else n
  }

  predicate UsesStrategy(n: NewRun) {
    !n.policy.strategy.Hold? && n.policy.key != Empty && n.policy.limit > 0
  }

  // A run resolved and inserted on its own rather than with its batch.
  predicate Immediate(n: NewRun) {
    n.run.uniqueKey != Empty || UsesStrategy(n)
  }

  function Inserted(db: Db, n: NewRun): Db {
    db.(runs := db.runs[n.id := n.run],
        steps := map id | id in db.steps.Keys + (set name | name in n.steps :: StepId(n.id, name)) ::
          if id.run == n.id && id.name in n.steps then n.steps[id.name] else db.steps[id])
  }

  function InsertedAll(db: Db, ns: seq<NewRun>): Db {
    if ns == [] then db else Inserted(InsertedAll(db, ns[..|ns| - 1]), ns[|ns| - 1])
  }

  // The live runs that hold a unique key.
  function UniqueHolders(db: Db, workflow: Str, key: Str): set<Str> {
    set r | r in db.runs && db.runs[r].workflow == workflow && db.runs[r].uniqueKey == key && !IsTerminal(db.runs[r].status)
  }

  // Any row, live or not, that the unique index would collide with.
  predicate Collides(db: Db, n: NewRun) {
    exists r :: r in db.runs && db.runs[r].workflow == n.run.workflow && db.runs[r].uniqueKey == n.run.uniqueKey
  }

  ghost function Holder(holders: set<Str>): (r: Str)
    requires holders != {}
    ensures r in holders
  {
    var r :| r in holders;
    r
  }

  // ---- concurrency strategies ---------------------------------------------------

  // The live runs that share a concurrency key.
  function Contenders(db: Db, key: Str): set<Str> {
    set r | r in db.runs && db.runs[r].key == key && !IsTerminal(db.runs[r].status)
  }

  // ORDER BY seq ASC, created_at ASC.
  predicate NoYounger(a: Run, b: Run) {
    a.seqNo < b.seqNo || (a.seqNo == b.seqNo && a.createdAt <= b.createdAt)
  }

  ghost predicate IsOldest(runs: map<Str, Run>, r: Str, among: set<Str>)
    requires forall x | x in among :: x in runs
  {
    r in among && forall x | x in among :: NoYounger(runs[r], runs[x])
  }

  lemma OldestExists(runs: map<Str, Run>, among: set<Str>)
    requires forall x | x in among :: x in runs
    requires among != {}
    ensures exists r :: IsOldest(runs, r, among)
  {
    var x :| x in among;
    if exists y :: y in among && y != x {
      var y :| y in among && y != x;
      assert y in among - {x};
      OldestExists(runs, among - {x});
      var z :| IsOldest(runs, z, among - {x});
      assert IsOldest(runs, if NoYounger(runs[x], runs[z]) then x else z, among);
    } else {
      assert IsOldest(runs, x, among);
    }
  }

  ghost function Oldest(runs: map<Str, Run>, among: set<Str>): (r: Str)
    requires forall x | x in among :: x in runs
    requires among != {}
    ensures IsOldest(runs, r, among)
  {
    OldestExists(runs, among);
    var r :| IsOldest(runs, r, among);
    r
  }

  ghost function BySeq(runs: map<Str, Run>, among: set<Str>): (s: seq<Str>)
    requires forall x | x in among :: x in runs
    ensures |s| == |among| && Distinct(s)
    ensures forall x :: x in s <==> x in among
    decreases |among|
  {
    if among == {} then []
    else
      var r := Oldest(runs, among);
      [r] + BySeq(runs, among - {r})
  }

  // The three ways a strategy splits the contenders by status.
  datatype Pick = IfRunning | UnlessRunning | IfQueued

  predicate Picks(p: Pick, s: Status) {
    match p
    case IfRunning => s.Running?
    case UnlessRunning => !s.Running?
    case IfQueued => s.Queued?
  }

  function Picked(runs: map<Str, Run>, cands: seq<Str>, p: Pick): seq<Str>
    requires forall x | x in cands :: x in runs
  {
    if cands == [] then []
    else
      var x := cands[|cands| - 1];
      Picked(runs, cands[..|cands| - 1], p) + if Picks(p, runs[x].status) then [x] else []
  }

  lemma {:induction false} PickedMembers(runs: map<Str, Run>, cands: seq<Str>, p: Pick)
    requires forall x | x in cands :: x in runs
    ensures |Picked(runs, cands, p)| <= |cands|
    ensures Distinct(cands) ==> Distinct(Picked(runs, cands, p))
    ensures forall x :: x in Picked(runs, cands, p) <==> x in cands && Picks(p, runs[x].status)
  {
    if cands != [] {
      var front := cands[..|cands| - 1];
      assert cands == front + [cands[|cands| - 1]];
      PickedMembers(runs, front, p);
    }
  }

  lemma {:induction false} PickedSplit(runs: map<Str, Run>, cands: seq<Str>)
    requires forall x | x in cands :: x in runs
    ensures |Picked(runs, cands, IfRunning)| + |Picked(runs, cands, UnlessRunning)| == |cands|
  {
    if cands != [] {
      PickedSplit(runs, cands[..|cands| - 1]);
    }
  }

  lemma VictimsDistinct(runs: map<Str, Run>, cands: seq<Str>, limit: int, strategy: Strategy)
    requires forall x | x in cands :: x in runs
    requires limit > 0 && Distinct(cands)
    ensures Distinct(Victims(runs, cands, limit, strategy))
    ensures forall x | x in Victims(runs, cands, limit, strategy) :: x in cands
  {
    PickedMembers(runs, cands, IfRunning);
    PickedMembers(runs, cands, UnlessRunning);
    PickedMembers(runs, cands, IfQueued);
    PickedSplit(runs, cands);
    var running, others := Picked(runs, cands, IfRunning), Picked(runs, cands, UnlessRunning);
    forall i, j | 0 <= i < |running| && 0 <= j < |others| ensures running[i] != others[j] {
      assert running[i] in running && others[j] in others;
    }
    assert Distinct(running + others);
  }

  // The runs a strategy cancels, given every live run of the key in seq order.
  function Victims(runs: map<Str, Run>, cands: seq<Str>, limit: int, strategy: Strategy): seq<Str>
    requires forall x | x in cands :: x in runs
    requires limit > 0
  {
    if |cands| <= limit then []
    else
      match strategy
      case Hold => []
      case CancelNewest => [cands[|cands| - 1]]
      case CancelInProgress =>
        PickedSplit(runs, cands);
        (Picked(runs, cands, IfRunning) + Picked(runs, cands, UnlessRunning))[..|cands| - limit]
      case CancelQueuedExceptNewest =>
        var queued := Picked(runs, cands, IfQueued);
        if |queued| <= limit then [] else queued[..|queued| - limit]
      case CancelQueuedExceptOldest =>
        var queued := Picked(runs, cands, IfQueued);
        if |queued| <= limit then [] else queued[limit..]
  }

  function CancelAll(db: Db, runs: seq<Str>, now: int): Db {
    if runs == [] then db
    else CancelOrDelete(CancelAll(db, runs[..|runs| - 1], now), runs[|runs| - 1], now)
  }

  ghost function StrategyVictims(db: Db, n: NewRun): seq<Str> {
    if UsesStrategy(n) then
      Victims(db.runs, BySeq(db.runs, Contenders(db, n.run.key)), n.policy.limit, n.policy.strategy)
    else []
  }

  // ---- one run -------------------------------------------------------------------

  // The insert of a resolved run and its strategy, after `replaced` was cancelled.
  ghost function InsertOne(db: Db, n: NewRun, replaced: seq<Str>, now: int): Outcome {
    if n.run.uniqueKey != Empty && Collides(db, n) then Rejected(UniqueViolation)
    else
      var db1 := Inserted(db, n);
      var victims := StrategyVictims(db1, n);
      Enqueued(CancelAll(db1, victims, now), n.id, replaced + victims)
  }

  ghost function Resolve(db: Db, n: NewRun, now: int): Outcome {
    if n.run.uniqueKey != Empty && UniqueHolders(db, n.run.workflow, n.run.uniqueKey) != {} then
      var existing := Holder(UniqueHolders(db, n.run.workflow, n.run.uniqueKey));
      match n.conflict
      case Reuse => Enqueued(db, existing, [])
      case Error => Rejected(DuplicateJob)
      case Replace => InsertOne(CancelRow(db, existing, true, now), n, [existing], now)
    else InsertOne(db, n, [], now)
  }

  // The insertion counter moves on for a run that takes a value from it.
  ghost function Numbered(db: Db, n: NewRun): Db {
    if Sequenced(n) then db.(next := db.next + 1) else db
  }

  // A transaction that enqueues one run: number it, then resolve and insert it.
  ghost function EnqueueOne(db: Db, n: NewRun, now: int): Outcome {
    Resolve(Numbered(db, n), Stamped(n, db.next + 1), now)
  }

  datatype BatchOutcome =
    | AllDone(db: Db, ids: seq<Str>, replaced: seq<Str>)
    | NoneDone(failure: Failure)

  // The runs of a batch enqueued one by one in order; a failure undoes them all.
  ghost function EnqueueAll(db: Db, ns: seq<NewRun>, now: int): BatchOutcome
    decreases |ns|
  {
    if ns == [] then AllDone(db, [], [])
    else
      match EnqueueAll(db, ns[..|ns| - 1], now)
      case NoneDone(f) => NoneDone(f)
      case AllDone(db1, ids, replaced) =>
        match EnqueueOne(db1, ns[|ns| - 1], now)
        case Rejected(f) => NoneDone(f)
        case Enqueued(db2, id, more) => AllDone(db2, ids + [id], replaced + more)
  }

  // ---- building a run ----------------------------------------------------------------

  // What a task definition says about its steps. The keys are the values its key
  // functions return.
  datatype TaskDef = TaskDef(
    queue: Str,
    maxAttempts: int,
    key: Str,
    keyLimit: int,
    seqKey: Str,
    keys: map<Str, StepKey>,
    labels: set<Str>,
    strategy: Strategy)

  // One step of an enqueue request; its task may have no definition.
  datatype StepDef = StepDef(req: StepReq, def: Option<TaskDef>)

  // An Empty queue is the default one; without a start the run is due at once.
  datatype Request = Request(
    id: Str,
    workflow: Str,
    queue: Str,
    priority: int,
    runAt: Option<int>,
    uniqueKey: Str,
    conflict: Conflict,
    ephemeral: bool,
    steps: seq<StepDef>)

  datatype Built =
    | Built(n: NewRun)
    | NoSteps
    | Invalid(v: Verdict)
    | NoDefinition(step: Str)

  function AtLeastOne(n: int): int {
    if n < 1 then 1 else n
  }

  function StepReqs(steps: seq<StepDef>): seq<StepReq> {
    seq(|steps|, i requires 0 <= i < |steps| => steps[i].req)
  }

  // The steps before the n-th have definitions.
  predicate Defined(r: Request, n: nat)
    requires n <= |r.steps|
  {
    forall i | 0 <= i < n :: r.steps[i].def.Some?
  }

  function DueAt(r: Request, now: int): int {
    if r.runAt.Some? then r.runAt.value else now
  }

  function BuiltStep(r: Request, req: StepReq, d: TaskDef, ord: nat, now: int): Step {
    Step(ord, if |req.deps| > 0 then Blocked else Queued, req.deps, d.queue, r.priority, Empty, Empty, 0,
         AtLeastOne(d.maxAttempts), DueAt(r, now), 0, 0, 0, NoWait, d.key, if d.key != Empty then AtLeastOne(d.keyLimit) else 0,
         map name | name in d.keys && d.keys[name].value != Empty :: d.keys[name].(limit := AtLeastOne(d.keys[name].limit)),
         d.labels, d.seqKey, 0, Empty, 0)
  }

  // The run takes its keys from the first step's task, and its queue if the request
  // names none.
  function BuiltRun(r: Request, first: TaskDef, now: int): Run {
    Run(r.workflow, Queued, if r.queue == Empty then first.queue else r.queue, Empty, Empty, 0, DueAt(r, now), now, 0, 0, 0, 0,
        first.key, r.uniqueKey, first.seqKey, 0, r.ephemeral)
  }

  // What every run handed to the store satisfies.
  ghost predicate WellFormedStep(s: Step) {
    && (if |s.deps| > 0 then s.status.Blocked? else s.status.Queued?)
    && s.attempts == 0 && s.maxAttempts >= 1
    && s.startedAt == 0 && s.claimedAt == 0 && s.resumeAt == 0 && s.wait.NoWait?
    && (s.key != Empty ==> s.keyLimit >= 1)
    && forall name | name in s.keys :: s.keys[name].limit >= 1
  }

  function DepsOf(steps: map<Str, Step>): Graph {
    map name | name in steps :: steps[name].deps
  }

  ghost predicate WellFormed(n: NewRun) {
    && n.run.status.Queued? && n.run.startedAt == 0 && n.run.deadAt == 0 && n.run.seqNo == 0
    && n.policy.key == n.run.key
    && n.steps != map[]
    && (forall name | name in n.steps :: WellFormedStep(n.steps[name]) && n.steps[name].seqNo == 0)
    && (forall a, b | a in n.steps && b in n.steps && a != b :: n.steps[a].ord != n.steps[b].ord)
    && Closed(DepsOf(n.steps))
    && exists rank :: Ranks(DepsOf(n.steps), rank)
  }

  // The steps of a run, each built from its definition.
  ghost predicate BuiltFrom(steps: map<Str, Step>, r: Request, n: nat, now: int)
    requires n <= |r.steps| && Defined(r, n)
  {
    && (forall j | 0 <= j < n :: r.steps[j].req.name in steps && steps[r.steps[j].req.name] == BuiltStep(r, r.steps[j].req, r.steps[j].def.value, j, now))
    && (forall name | name in steps :: 0 <= steps[name].ord < n && r.steps[steps[name].ord].req.name == name)
  }

  // The first step without a definition ends the build.
  method BuildSteps(r: Request, now: int) returns (steps: map<Str, Step>, n: nat)
    requires DistinctNames(StepReqs(r.steps))
    ensures n <= |r.steps| && Defined(r, n) && BuiltFrom(steps, r, n, now) && (n < |r.steps| ==> r.steps[n].def.None?)
  {
    steps, n := map[], 0;
    ghost var reqs := StepReqs(r.steps);
    while n < |r.steps| && r.steps[n].def.Some?
      invariant n <= |r.steps| && Defined(r, n) && BuiltFrom(steps, r, n, now)
    {
      forall j | 0 <= j < n ensures r.steps[j].req.name != r.steps[n].req.name {
        assert reqs[j].name != reqs[n].name;
      }
      steps := steps[r.steps[n].req.name := BuiltStep(r, r.steps[n].req, r.steps[n].def.value, n, now)];
      n := n + 1;
    }
  }

  lemma BuiltDeps(r: Request, steps: map<Str, Step>, now: int)
    requires DistinctNames(StepReqs(r.steps)) && Defined(r, |r.steps|) && BuiltFrom(steps, r, |r.steps|, now)
    ensures DepsOf(steps) == GraphOf(StepReqs(r.steps))
  {
    var reqs := StepReqs(r.steps);
    GraphKeys(reqs);
    forall name | name in steps ensures name in GraphOf(reqs) && GraphOf(reqs)[name] == steps[name].deps {
      GraphDeps(reqs, steps[name].ord);
    }
    forall name | name in GraphOf(reqs) ensures name in steps {
      var i :| 0 <= i < |reqs| && reqs[i].name == name;
      assert r.steps[i].req.name in steps;
    }
  }

  lemma BuiltOrds(r: Request, steps: map<Str, Step>, now: int)
    requires Defined(r, |r.steps|) && BuiltFrom(steps, r, |r.steps|, now)
    ensures forall a, b | a in steps && b in steps && a != b :: steps[a].ord != steps[b].ord
    ensures forall a | a in steps :: WellFormedStep(steps[a]) && steps[a].seqNo == 0
  {
    forall a | a in steps
      ensures WellFormedStep(steps[a]) && steps[a].seqNo == 0
    {
      var d := r.steps[steps[a].ord];
      assert steps[a] == BuiltStep(r, d.req, d.def.value, steps[a].ord, now);
    }
  }

  // buildRun: a run, or the first fault of the request.
  method BuildRun(r: Request, now: int) returns (b: Built)
    ensures b.Built? <==> r.steps != [] && Valid(StepReqs(r.steps)) && Defined(r, |r.steps|)
    ensures b.NoSteps? <==> r.steps == []
    ensures b.Invalid? <==> r.steps != [] && !Valid(StepReqs(r.steps))
    ensures b.NoDefinition? ==>
      exists i :: 0 <= i < |r.steps| && Defined(r, i) && r.steps[i].def.None? && r.steps[i].req.name == b.step
    ensures b.Built? ==> WellFormed(b.n) && b.n.id == r.id && b.n.run == BuiltRun(r, r.steps[0].def.value, now)
    ensures b.Built? ==> BuiltFrom(b.n.steps, r, |r.steps|, now) && b.n.conflict == r.conflict
    ensures b.Built? ==> var d := r.steps[0].def.value; b.n.policy == Policy(d.key, d.keyLimit, d.strategy)
  {
    if r.steps == [] {
      return NoSteps;
    }
    var v := ValidateDAG(StepReqs(r.steps));
    if !v.Accepted? {
      return Invalid(v);
    }
    var steps, n := BuildSteps(r, now);
    if n < |r.steps| {
      return NoDefinition(r.steps[n].req.name);
    }
    assert r.steps[0].req.name in steps;
    BuiltDeps(r, steps, now);
    BuiltOrds(r, steps, now);
    AcyclicIffRanked(DepsOf(steps));
    var d := r.steps[0].def.value;
    b := Built(NewRun(r.id, BuiltRun(r, d, now), steps, r.conflict, Policy(d.key, d.keyLimit, d.strategy)));
  }
}
