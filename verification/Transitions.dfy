// Each transaction of the store as a function from database to database. The
// imperative methods of Store.dfy are proved equal to these; every invariant is
// proved about these.

module Transitions {
  import opened Names
  import opened Schema

  // ---- claiming -------------------------------------------------------------

  predicate KeyGate(steps: map<StepId, Step>, id: StepId)
    requires id in steps
  {
    var s := steps[id];
    s.key == Empty || s.keyLimit <= 0 || |Holders(steps, Main(s.key))| < s.keyLimit
  }

  predicate KeysGate(steps: map<StepId, Step>, id: StepId)
    requires id in steps
  {
    var s := steps[id];
    forall name | name in s.keys ::
      s.keys[name].limit <= 0 || |Holders(steps, Extra(name, s.keys[name].value))| < s.keys[name].limit
  }

  predicate SequenceGate(steps: map<StepId, Step>, id: StepId)
    requires id in steps
  {
    var s := steps[id];
    forall j | j in steps ::
      !(steps[j].seqKey == s.seqKey && steps[j].seqKey != Empty && steps[j].seqNo < s.seqNo && IsActive(steps[j].status))
  }

  predicate QueuePausedGate(db: Db, s: Step) {
    s.queue !in db.pausedQueues
  }

  predicate RunNotPausedGate(db: Db, run: Str) {
    run in db.runs ==> !db.runs[run].status.Paused?
  }

  // The predicate shared by the candidate query and both claim updates.
  predicate Gates(db: Db, id: StepId)
    requires id in db.steps
  {
    && KeyGate(db.steps, id)
    && QueuePausedGate(db, db.steps[id])
    && RunNotPausedGate(db, id.run)
    && SequenceGate(db.steps, id)
    && KeysGate(db.steps, id)
  }

  predicate ResumeDue(s: Step, now: int) {
    s.status.Suspended? && 0 < s.resumeAt <= now
  }

  // Whether the guarded update of one claim changes its row.
  predicate Claimable(db: Db, id: StepId, resumed: bool, now: int) {
    && id in db.steps
    && (if resumed then ResumeDue(db.steps[id], now) else db.steps[id].status.Queued?)
    && Gates(db, id)
  }

  datatype Claimer = Claimer(now: int, worker: Str, lease: int)

  function ClaimedStep(s: Step, resumed: bool, c: Claimer): Step {
    if resumed then
      s.(status := Running, claimedAt := c.now, resumeAt := 0, wait := NoWait, worker := c.worker, lease := c.lease)
    else
      s.(status := Running, attempts := s.attempts + 1, claimedAt := c.now,
         startedAt := if s.startedAt == 0 then c.now else s.startedAt, worker := c.worker, lease := c.lease)
  }

  function ClaimedRun(r: Run, now: int): Run {
    if r.status.Queued? then
      r.(status := Running, attempts := r.attempts + 1, startedAt := if r.startedAt == 0 then now else r.startedAt)
    else r
  }

  function ClaimOne(db: Db, id: StepId, resumed: bool, c: Claimer): Db {
    if Claimable(db, id, resumed, c.now) then
      var steps := db.steps[id := ClaimedStep(db.steps[id], resumed, c)];
      if !resumed && id.run in db.runs then
        db.(steps := steps, runs := db.runs[id.run := ClaimedRun(db.runs[id.run], c.now)])
      else
        db.(steps := steps)
    else db
  }

  datatype Candidate = Candidate(id: StepId, resumed: bool)

  // The claim loop: each candidate is tried against the rows as the earlier
  // claims of the same transaction left them.
  function ClaimAll(db: Db, cands: seq<Candidate>, c: Claimer): Db
    decreases |cands|
  {
    if cands == [] then db
    else
      var last := cands[|cands| - 1];
      ClaimOne(ClaimAll(db, cands[..|cands| - 1], c), last.id, last.resumed, c)
  }

  // The ids the loop claims, in order.
  function ClaimLog(db: Db, cands: seq<Candidate>, c: Claimer): seq<StepId>
    decreases |cands|
  {
    if cands == [] then []
    else
      var last := cands[|cands| - 1];
      ClaimLog(db, cands[..|cands| - 1], c)
      + if Claimable(ClaimAll(db, cands[..|cands| - 1], c), last.id, last.resumed, c.now) then [last.id] else []
  }

  datatype QueueClaim = QueueClaim(name: Str, limit: int, rateLimit: int, rateWindow: int)

  const SECOND := 1_000_000_000

  function Window(q: QueueClaim): int {
    if q.rateWindow <= 0 then SECOND else q.rateWindow
  }

  function StampedSince(steps: map<StepId, Step>, queue: Str, since: int): set<StepId> {
    set id | id in steps && steps[id].queue == queue && steps[id].claimedAt >= since
  }

  // The number of candidates the query may return: the free slots, cut down to
  // what is left of the rate window.
  function Budget(db: Db, q: QueueClaim, now: int): int {
    if q.rateLimit > 0 then
      var remaining := q.rateLimit - |StampedSince(db.steps, q.name, now - Window(q))|;
      if remaining < q.limit then remaining else q.limit
    else q.limit
  }

  // A row the candidate query selects.
  predicate Due(db: Db, q: QueueClaim, id: StepId, now: int, labels: set<Str>) {
    && id in db.steps
    && db.steps[id].queue == q.name
    && ((db.steps[id].status.Queued? && db.steps[id].runAt <= now) || ResumeDue(db.steps[id], now))
    && Gates(db, id)
    && db.steps[id].labels <= labels
  }

  // ORDER BY priority DESC, run_at ASC, ord ASC.
  predicate NoLater(a: Step, b: Step) {
    || a.priority > b.priority
    || (a.priority == b.priority && (a.runAt < b.runAt || (a.runAt == b.runAt && a.ord <= b.ord)))
  }

  function NoLess(limit: int): int {
    if limit < 0 then 0 else limit
  }

  // What the candidate query may answer: distinct due rows in claim order, at
  // most `limit` of them, and no due row left out ahead of one that is in.
  ghost predicate IsAnswer(db: Db, q: QueueClaim, cands: seq<Candidate>, limit: int, now: int, labels: set<Str>) {
    && |cands| <= NoLess(limit)
    && (forall i | 0 <= i < |cands| ::
          Due(db, q, cands[i].id, now, labels) && cands[i].resumed == db.steps[cands[i].id].status.Suspended?)
    && (forall i, j | 0 <= i < j < |cands| :: cands[i].id != cands[j].id)
    && (forall i, j | 0 <= i < j < |cands| :: NoLater(db.steps[cands[i].id], db.steps[cands[j].id]))
    && (forall id | Due(db, q, id, now, labels) && (forall i | 0 <= i < |cands| :: cands[i].id != id) ::
          |cands| == NoLess(limit) && forall i | 0 <= i < |cands| :: NoLater(db.steps[cands[i].id], db.steps[id]))
  }

  // ---- outcomes of one step ---------------------------------------------------

  function Refunded(s: Step): int {
    if s.attempts > 0 then s.attempts - 1 else s.attempts
  }

  predicate IsRunning(db: Db, id: StepId) {
    id in db.steps && db.steps[id].status.Running?
  }

  function RetryStep(db: Db, id: StepId, error: Str, nextRunAt: int): Db {
    if IsRunning(db, id) then
      db.(steps := db.steps[id := db.steps[id].(status := Queued, error := error, runAt := nextRunAt)])
    else db
  }

  function ParkStep(db: Db, id: StepId, error: Str, nextRunAt: int): Db {
    if IsRunning(db, id) then
      db.(steps := db.steps[id := db.steps[id].(status := Queued, error := error, runAt := nextRunAt, claimedAt := 0,
                                                attempts := Refunded(db.steps[id]))])
    else db
  }

  function RequeuePausedStep(db: Db, id: StepId): Db {
    if IsRunning(db, id) then
      db.(steps := db.steps[id := db.steps[id].(status := Queued, claimedAt := 0, worker := Empty, lease := 0,
                                                attempts := Refunded(db.steps[id]))])
    else db
  }

  function StepCancelled(db: Db, id: StepId): Db {
    if id in db.steps && IsStarted(db.steps[id].status) then
      db.(steps := db.steps[id := db.steps[id].(status := Cancelled, resumeAt := 0, wait := NoWait)])
    else db
  }

  // ---- completion -------------------------------------------------------------

  datatype CompleteResult = CompleteResult(
    stepDone: bool,
    ready: set<Str>,
    cancelled: set<Str>,
    runTerminal: bool,
    runStatus: Status,
    runError: Str,
    runOutput: Str)

  const REFUSED := CompleteResult(false, {}, {}, false, Queued, Empty, Empty)

  predicate DepsSucceeded(steps: map<StepId, Step>, id: StepId)
    requires id in steps
  {
    forall d | d in steps[id].deps :: StepId(id.run, d) in steps && steps[StepId(id.run, d)].status.Succeeded?
  }

  // The BLOCKED steps of a run that depend on `name` and whose dependencies
  // have all succeeded: what the completion of `name` unblocks.
  function Unblocked(steps: map<StepId, Step>, run: Str, name: Str): set<Str> {
    set id | id in steps && id.run == run && steps[id].status.Blocked? && name in steps[id].deps && DepsSucceeded(steps, id)
      :: id.name
  }

  // What a scan of the whole run would unblock.
  function AllUnblocked(steps: map<StepId, Step>, run: Str): set<Str> {
    set id | id in steps && id.run == run && steps[id].status.Blocked? && DepsSucceeded(steps, id) :: id.name
  }

  function QueueSteps(steps: map<StepId, Step>, run: Str, names: set<Str>, now: int): map<StepId, Step> {
    map id | id in steps ::
      if id.run == run && id.name in names then steps[id].(status := Queued, runAt := now) else steps[id]
  }

  predicate AnyActive(steps: map<StepId, Step>, run: Str) {
    exists id :: id in steps && id.run == run && IsActive(steps[id].status)
  }

  function StepsOf(steps: map<StepId, Step>, run: Str): set<StepId> {
    set id | id in steps && id.run == run
  }

  // ORDER BY ord DESC LIMIT 1.
  ghost predicate IsLast(steps: map<StepId, Step>, id: StepId) {
    && id in steps
    && forall j | j in steps && j.run == id.run :: steps[j].ord <= steps[id].ord
  }

  ghost predicate AnyFailed(steps: map<StepId, Step>, run: Str) {
    exists id :: id in steps && id.run == run && steps[id].status.Failed?
  }

  ghost function LastOutput(steps: map<StepId, Step>, run: Str): Str {
    if exists id: StepId :: id.run == run && IsLast(steps, id) then
      var id: StepId :| id.run == run && IsLast(steps, id);
      steps[id].output
    else Empty
  }

  ghost function FailedError(steps: map<StepId, Step>, run: Str): Str
    requires AnyFailed(steps, run)
  {
    var id :| id in steps && id.run == run && steps[id].status.Failed?;
    steps[id].error
  }

  function DeleteRuns(db: Db, ids: set<Str>): Db {
    db.(runs := map r | r in db.runs && r !in ids :: db.runs[r],
        steps := map id | id in db.steps && id.run !in ids :: db.steps[id],
        journal := map id | id in db.journal && id.run !in ids :: db.journal[id])
  }

  // The run's terminal row and, for an ephemeral run, its deletion.
  function FinishRun(db: Db, run: Str, status: Status, output: Str, error: Str, now: int): Db
    requires run in db.runs
  {
    var r := db.runs[run];
    var db1 := if IsTerminal(r.status) then db
               else db.(runs := db.runs[run := r.(status := status, output := output, error := error,
                                                  completedAt := now, uniqueKey := Empty)]);
    if r.ephemeral then DeleteRuns(db1, {run}) else db1
  }

  function SucceedStep(steps: map<StepId, Step>, id: StepId, output: Str): map<StepId, Step>
    requires id in steps
  {
    steps[id := steps[id].(status := Succeeded, output := output, error := Empty)]
  }

  // Whether the success write of a completion changes its row.
  predicate Accepts(db: Db, id: StepId) {
    && Live(db, id.run)
    && id in db.steps
    && (db.steps[id].status.Queued? || db.steps[id].status.Running?)
  }

  // The tail of a completion once dependents are unblocked: is the run over?
  ghost function Conclude(db: Db, run: Str, ready: set<Str>, now: int): (Db, CompleteResult)
    requires run in db.runs
  {
    if AnyActive(db.steps, run) then
      (db, CompleteResult(true, ready, {}, false, Running, Empty, Empty))
    else
      var output := LastOutput(db.steps, run);
      var failed := AnyFailed(db.steps, run);
      var status := if failed then Failed else Succeeded;
      var error := if failed then FailedError(db.steps, run) else Empty;
      (FinishRun(db, run, status, output, error, now),
       CompleteResult(true, ready, {}, true, status, error, output))
  }

  // Any row the unordered queries may pick: the failed step's error, and the
  // output of a step of highest order.
  ghost predicate MayReport(steps: map<StepId, Step>, run: Str, output: Str, error: Str) {
    && (exists id: StepId :: id.run == run && IsLast(steps, id) && steps[id].output == output)
    && (if AnyFailed(steps, run) then exists id :: id in steps && id.run == run && steps[id].status.Failed? && steps[id].error == error
        else error == Empty)
  }

  // completeStepTx for a run of `count` steps. None is the error of a missing run.
  ghost function Complete(db: Db, id: StepId, count: int, output: Str, now: int): Option<(Db, CompleteResult)> {
    if id.run !in db.runs then None
    else if IsTerminal(db.runs[id.run].status) then
      if id in db.steps && (db.steps[id].status.Queued? || db.steps[id].status.Running?) then
        Some((db.(steps := db.steps[id := db.steps[id].(status := Cancelled)]), REFUSED))
      else Some((db, REFUSED))
    else if !Accepts(db, id) then Some((db, REFUSED))
    else
      var db1 := db.(steps := SucceedStep(db.steps, id, output));
      if count == 1 then
        Some((FinishRun(db1, id.run, Succeeded, output, Empty, now),
              CompleteResult(true, {}, {}, true, Succeeded, Empty, output)))
      else
        var ready := Unblocked(db1.steps, id.run, id.name);
        Some(Conclude(db1.(steps := QueueSteps(db1.steps, id.run, ready, now)), id.run, ready, now))
  }

  ghost function CompleteStep(db: Db, id: StepId, output: Str, now: int): Option<(Db, CompleteResult)> {
    Complete(db, id, |StepsOf(db.steps, id.run)|, output, now)
  }

  // ---- failure and cancellation -------------------------------------------------

  function FailedStep(s: Step, self: bool, error: Str): Step {
    if self then s.(status := Failed, error := error)
    else if IsActive(s.status) then s.(status := Cancelled)
    else s
  }

  function FailedRun(r: Run, error: Str, deadLetter: bool, now: int): Run {
    if IsTerminal(r.status) then r
    else r.(status := Failed, error := error, completedAt := now, uniqueKey := Empty,
            deadAt := if deadLetter && !r.ephemeral then now else r.deadAt)
  }

  function FinalFail(db: Db, id: StepId, error: Str, deadLetter: bool, now: int): Db {
    if id.run !in db.runs then db
    else
      var db1 := db.(
        steps := map j | j in db.steps ::
          if j.run == id.run then FailedStep(db.steps[j], j == id, error) else db.steps[j],
        runs := db.runs[id.run := FailedRun(db.runs[id.run], error, deadLetter, now)]);
      if db.runs[id.run].ephemeral then DeleteRuns(db1, {id.run}) else db1
  }

  function CancelledRun(r: Run, now: int): Run {
    r.(status := Cancelled, completedAt := now, uniqueKey := Empty)
  }

  // cancelRunTx, and with `running` replaceRunTx, which cancels RUNNING steps too.
  function CancelRow(db: Db, run: Str, running: bool, now: int): Db {
    if run !in db.runs then db
    else db.(
      runs := db.runs[run := CancelledRun(db.runs[run], now)],
      steps := map j | j in db.steps ::
        if j.run == run && IsActive(db.steps[j].status) && (running || !db.steps[j].status.Running?)
        then db.steps[j].(status := Cancelled) else db.steps[j])
  }

  function CancelOrDelete(db: Db, run: Str, now: int): Db {
    if run !in db.runs then db
    else if db.runs[run].ephemeral then DeleteRuns(db, {run})
    else CancelRow(db, run, false, now)
  }

  function CancelRun(db: Db, run: Str, now: int): Db {
    if Live(db, run) then CancelOrDelete(db, run, now) else db
  }

  // ---- pausing, snoozing, dead letters -------------------------------------------

  function QueuedAt(steps: map<StepId, Step>, run: Str, at: int): map<StepId, Step> {
    map j | j in steps :: if j.run == run && steps[j].status.Queued? then steps[j].(runAt := at) else steps[j]
  }

  function PauseRun(db: Db, run: Str, now: int): Db {
    if Live(db, run) && !db.runs[run].status.Paused? then
      db.(runs := db.runs[run := db.runs[run].(status := Paused, pausedAt := now)])
    else db
  }

  function ResumeRun(db: Db, run: Str, now: int): Db {
    if Live(db, run) && db.runs[run].status.Paused? then
      db.(steps := QueuedAt(db.steps, run, now),
          runs := db.runs[run := db.runs[run].(status := Queued, runAt := now, pausedAt := 0)])
    else db
  }

  predicate AnyRunning(steps: map<StepId, Step>, run: Str) {
    exists id :: id in steps && id.run == run && steps[id].status.Running?
  }

  function Snooze(db: Db, run: Str, until: int): Db {
    if Live(db, run) && !AnyRunning(db.steps, run) then
      db.(steps := QueuedAt(db.steps, run, until), runs := db.runs[run := db.runs[run].(runAt := until)])
    else db
  }

  predicate IsDeadLetter(db: Db, run: Str) {
    run in db.runs && db.runs[run].status.Failed? && db.runs[run].deadAt != 0
  }

  function ResetStep(s: Step, now: int): Step {
    s.(status := if |s.deps| > 0 then Blocked else Queued, attempts := 0, error := Empty, output := Empty,
       startedAt := 0, claimedAt := 0, worker := Empty, lease := 0, resumeAt := 0, wait := NoWait, runAt := now)
  }

  function RetryDeadLetter(db: Db, run: Str, now: int): Db {
    if IsDeadLetter(db, run) then
      db.(steps := map j | j in db.steps :: if j.run == run then ResetStep(db.steps[j], now) else db.steps[j],
          runs := db.runs[run := db.runs[run].(status := Queued, attempts := 0, error := Empty, output := Empty,
                                               startedAt := 0, completedAt := 0, runAt := now, deadAt := 0)])
    else db
  }

  function DismissDeadLetter(db: Db, run: Str): Db {
    if run in db.runs && db.runs[run].deadAt > 0 then
      db.(runs := db.runs[run := db.runs[run].(deadAt := 0)])
    else db
  }

  // A run a purge may delete: terminal, finished, and with no step executing.
  predicate Purgeable(db: Db, run: Str) {
    && run in db.runs
    && IsTerminal(db.runs[run].status)
    && db.runs[run].completedAt > 0
    && !AnyRunning(db.steps, run)
  }

  // ---- leases, shutdown and boot ---------------------------------------------------

  predicate Expired(db: Db, id: StepId, now: int) {
    IsRunning(db, id) && 0 < db.steps[id].lease < now && Live(db, id.run)
  }

  // The rows of `ids` are the ones the LIMIT subquery picked.
  function Reap(db: Db, ids: set<StepId>, now: int): Db {
    db.(steps := map j | j in db.steps ::
      if j in ids && Expired(db, j, now) then db.steps[j].(status := Queued, runAt := now, worker := Empty, lease := 0)
      else db.steps[j])
  }

  function Heartbeat(db: Db, worker: Str, until: int): Db {
    db.(steps := map j | j in db.steps ::
      if db.steps[j].worker == worker && db.steps[j].status.Running? then db.steps[j].(lease := until) else db.steps[j])
  }

  function EphemeralRunning(db: Db): set<Str> {
    set r | r in db.runs && db.runs[r].status.Running? && db.runs[r].ephemeral
  }

  function InterruptedRun(r: Run, now: int): Run {
    r.(status := Interrupted, completedAt := now, uniqueKey := Empty)
  }

  // InterruptAll without a worker id.
  function InterruptAll(db: Db, now: int): Db {
    var db1 := DeleteRuns(db, EphemeralRunning(db));
    db1.(
      steps := map j | j in db1.steps ::
        if db1.steps[j].status.Running? then db1.steps[j].(status := Interrupted) else db1.steps[j],
      runs := map r | r in db1.runs ::
        if db1.runs[r].status.Running? then InterruptedRun(db1.runs[r], now) else db1.runs[r])
  }

  function RunsOfWorker(db: Db, worker: Str): set<Str> {
    set id | id in db.steps && db.steps[id].status.Running? && db.steps[id].worker == worker && id.run in db.runs :: id.run
  }

  // InterruptAll of one worker in lease mode.
  function InterruptWorker(db: Db, worker: Str, now: int): Db {
    var runIds := RunsOfWorker(db, worker);
    var db1 := DeleteRuns(db, set r | r in runIds && db.runs[r].ephemeral);
    var db2 := db1.(steps := map j | j in db1.steps ::
      if db1.steps[j].status.Running? && db1.steps[j].worker == worker
      then db1.steps[j].(status := Interrupted, worker := Empty, lease := 0) else db1.steps[j]);
    db2.(runs := map r | r in db2.runs ::
      if r in runIds && db2.runs[r].status.Running? && !AnyActive(db2.steps, r)
      then InterruptedRun(db2.runs[r], now) else db2.runs[r])
  }

  predicate LostStep(s: Step, keep: bool) {
    s.status.Running? || s.status.Interrupted? || (!keep && s.status.Suspended?)
  }

  function RecoveredStep(s: Step, keep: bool, reason: Str, now: int): Step {
    if !LostStep(s, keep) then s
    else if keep then s.(status := Queued, runAt := now, resumeAt := 0, wait := NoWait)
    else s.(status := Failed, runAt := now, error := reason, resumeAt := 0, wait := NoWait)
  }

  function RecoveredRun(r: Run, keep: bool, reason: Str, now: int): Run {
    if !(r.status.Running? || r.status.Interrupted?) then r
    else if keep then r.(status := Queued, runAt := now)
    else r.(status := Failed, runAt := now, error := reason, completedAt := now, uniqueKey := Empty)
  }

  // recoverInterrupted; `reason` is the text "interrupted by restart".
  function Recover(db: Db, keep: bool, reason: Str, now: int): Db {
    var db1 := DeleteRuns(db, set r | r in db.runs && db.runs[r].ephemeral);
    db1.(steps := map j | j in db1.steps :: RecoveredStep(db1.steps[j], keep, reason, now),
         runs := map r | r in db1.runs :: RecoveredRun(db1.runs[r], keep, reason, now))
  }

  // One process ends, by Close (which sweeps first) or by a crash, and the next
  // one boots on the same file.
  function Reboot(db: Db, graceful: bool, keep: bool, reason: Str, now: int): Db {
    Recover(if graceful then InterruptAll(db, now) else db, keep, reason, now)
  }

  // ---- the journal -------------------------------------------------------------------

  // INSERT INTO step_journal at idx. Rows are inserted in call order, so any
  // other idx is a primary-key collision; a row belongs to an existing step.
  function AppendJournal(db: Db, id: StepId, idx: nat, e: Entry): Db {
    if id in db.steps && idx == |Journal(db, id)| then db.(journal := db.journal[id := Journal(db, id) + [e]]) else db
  }

  function CompleteOnce(db: Db, id: StepId, idx: nat, result: Str): Db {
    if idx < |Journal(db, id)| then
      db.(journal := db.journal[id := Journal(db, id)[idx := Journal(db, id)[idx].(done := true, result := result)]])
    else db
  }

  function SuspendedStep(s: Step, wait: Wait, resumeAt: int): Step {
    s.(status := Suspended, resumeAt := resumeAt, wait := wait)
  }

  function SuspendStep(db: Db, id: StepId, wait: Wait, resumeAt: int): Db {
    if IsRunning(db, id) then db.(steps := db.steps[id := SuspendedStep(db.steps[id], wait, resumeAt)]) else db
  }

  // The step's suspension and its journal row, in one transaction or not at all.
  function SuspendWithJournal(db: Db, id: StepId, idx: nat, e: Entry, wait: Wait, resumeAt: int): Db {
    if IsRunning(db, id) && idx == |Journal(db, id)| then
      AppendJournal(SuspendStep(db, id, wait, resumeAt), id, idx, e)
    else db
  }

  // Whether the guarded update of a timeout changes its row.
  predicate TimeoutWins(db: Db, id: StepId, idx: nat) {
    idx < |Journal(db, id)| && !Journal(db, id)[idx].done
  }

  function TimeoutWait(db: Db, id: StepId, idx: nat): Db {
    if TimeoutWins(db, id, idx) then
      db.(journal := db.journal[id := Journal(db, id)[idx := Journal(db, id)[idx].(done := true, timedOut := true)]])
    else db
  }

  predicate Awaits(e: Entry, event: Str) {
    e.kind.WaitFor? && !e.done && e.event == event
  }

  function DeliverEntry(e: Entry, event: Str, payload: Str): Entry {
    if Awaits(e, event) then e.(payload := payload, done := true) else e
  }

  function DeliverJournal(j: seq<Entry>, event: Str, payload: Str): (r: seq<Entry>)
    ensures |r| == |j|
    ensures forall i | 0 <= i < |j| :: r[i] == DeliverEntry(j[i], event, payload)
  {
    seq(|j|, i requires 0 <= i < |j| => DeliverEntry(j[i], event, payload))
  }

  // A row of the candidate query of DeliverEvent: a step of a live run.
  predicate Reachable(db: Db, id: StepId) {
    id in db.steps && Live(db, id.run)
  }

  predicate Woken(db: Db, id: StepId, event: Str) {
    Reachable(db, id) && exists i :: 0 <= i < |Journal(db, id)| && Awaits(Journal(db, id)[i], event)
  }

  function WokenStep(s: Step): Step {
    if s.status.Suspended? then s.(status := Queued, resumeAt := 0, wait := NoWait) else s
  }

  function DeliverEvent(db: Db, event: Str, payload: Str): Db {
    db.(journal := map id | id in db.journal ::
          if Reachable(db, id) then DeliverJournal(db.journal[id], event, payload) else db.journal[id],
        steps := map id | id in db.steps ::
          if Woken(db, id, event) then WokenStep(db.steps[id]) else db.steps[id])
  }
}
