// The rows of the runs, steps and step_journal tables, and the database that
// holds them. Timestamps are unix nanoseconds as unbounded integers; 0 means
// unset. Columns no transaction reads are not modelled (see README.md).

module Schema {
  import opened Names

  datatype Option<+T> = None | Some(value: T)

  datatype Status =
    | Queued | Running | Blocked | Suspended | Paused
    | Succeeded | Failed | Cancelled | Interrupted

  predicate IsTerminal(s: Status) {
    s.Succeeded? || s.Failed? || s.Cancelled? || s.Interrupted?
  }

  // The statuses of a step that still has work ahead of it.
  predicate IsActive(s: Status) {
    s.Queued? || s.Running? || s.Blocked? || s.Suspended?
  }

  // Active and not waiting for a dependency.
  predicate IsStarted(s: Status) {
    s.Queued? || s.Running? || s.Suspended?
  }

  // A step's row id is its run's id, a slash, and its name in the DAG.
  datatype StepId = StepId(run: Str, name: Str)

  // What a SUSPENDED step waits for (the wait_kind and wait_event columns).
  datatype Wait = NoWait | SleepWait | EventWait(event: Str)

  // One row of step_keys; the name is the key of the map it sits in.
  datatype StepKey = StepKey(value: Str, limit: int)

  datatype Step = Step(
    ord: int,
    status: Status,
    deps: seq<Str>,
    queue: Str,
    priority: int,
    output: Str,
    error: Str,
    attempts: int,
    maxAttempts: int,
    runAt: int,
    startedAt: int,
    claimedAt: int,
    resumeAt: int,
    wait: Wait,
    key: Str,
    keyLimit: int,
    keys: map<Str, StepKey>,
    labels: set<Str>,
    seqKey: Str,
    seqNo: int,
    worker: Str,
    lease: int)

  datatype Run = Run(
    workflow: Str,
    status: Status,
    queue: Str,
    output: Str,
    error: Str,
    attempts: int,
    runAt: int,
    createdAt: int,
    startedAt: int,
    completedAt: int,
    pausedAt: int,
    deadAt: int,
    key: Str,
    uniqueKey: Str,  // Empty is NULL
    seqKey: Str,
    seqNo: int,
    ephemeral: bool)

  datatype Kind = Sleep | Once | WaitFor

  // One row of step_journal; its idx is its position in the step's sequence.
  datatype Entry = Entry(
    kind: Kind,
    key: Str,
    event: Str,
    wakeAt: int,
    deadline: int,
    payload: Str,
    result: Str,
    done: bool,
    timedOut: bool)

  // Two rows of the same call, whatever became of it.
  predicate SameAwait(e: Entry, f: Entry) {
    e.kind == f.kind && e.key == f.key && e.event == f.event && e.wakeAt == f.wakeAt && e.deadline == f.deadline
  }

  datatype Db = Db(
    runs: map<Str, Run>,
    steps: map<StepId, Step>,
    journal: map<StepId, seq<Entry>>,
    next: int,
    pausedQueues: set<Str>)

  const EMPTY := Db(map[], map[], map[], 0, {})

  // The journal of a step, in call order.
  function Journal(db: Db, id: StepId): seq<Entry> {
    if id in db.journal then db.journal[id] else []
  }

  predicate Live(db: Db, run: Str) {
    run in db.runs && !IsTerminal(db.runs[run].status)
  }

  // A concurrency slot: a step's own concurrency key, or one of its extra keys.
  datatype Slot = Main(key: Str) | Extra(name: Str, value: Str)

  predicate Holds(s: Step, slot: Slot) {
    match slot
    case Main(key) => key != Empty && s.key == key
    case Extra(name, value) => name in s.keys && s.keys[name].value == value
  }

  function LimitOf(s: Step, slot: Slot): int
    requires Holds(s, slot)
  {
    match slot
    case Main(_) => s.keyLimit
    case Extra(name, _) => s.keys[name].limit
  }

  // The steps that occupy a place in a slot: the RUNNING ones that hold it.
  function Holders(steps: map<StepId, Step>, slot: Slot): set<StepId> {
    set id | id in steps && steps[id].status.Running? && Holds(steps[id], slot)
  }
}
