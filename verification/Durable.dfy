// Durable execution: a task's calls to SleepDurable, RunOnce and WaitFor against
// the journal, and the task run from the top as often as need be.

module Durable {
  import opened Names
  import opened Schema
  import opened Transitions

  // ---- one call ---------------------------------------------------------------------------

  // The step row, as far as its executor can tell.
  datatype State =
    | Ready
    | Running
    | Asleep(at: int)
    | Awaiting(event: Str, at: int)
    | Over      // finished or cancelled; the row is still there
    | Missing   // deleted with its run

  // A step, its journal rows, and the executor's loaded copy of them.
  datatype Session = Session(state: State, rows: seq<Entry>, loaded: seq<Entry>, cursor: nat)

  datatype Answer =
    | Slept
    | Got(value: Str)
    | Delivered(payload: Str)
    | TimedOut
    | Erred        // the function of a RunOnce failed
    | Refused      // the store refused the write
    | Misaligned

  // A call returns to the body, or unwinds it.
  datatype Reply = Returned(answer: Answer) | Unwound

  function SleepEntry(wakeAt: int, done: bool): Entry {
    Entry(Kind.Sleep, Empty, Empty, wakeAt, 0, Empty, Empty, done, false)
  }

  function OnceEntry(key: Str): Entry {
    Entry(Kind.Once, key, Empty, 0, 0, Empty, Empty, false, false)
  }

  function WaitEntry(event: Str, deadline: int): Entry {
    Entry(Kind.WaitFor, Empty, event, 0, deadline, Empty, Empty, false, false)
  }

  // The suspension and its entry in one transaction, or neither.
  function Record(s: Session, idx: nat, e: Entry, state: State): (Session, Reply) {
    if s.state.Running? && idx == |s.rows| then
      (s.(state := state, rows := s.rows + [e], loaded := s.loaded + [e]), Unwound)
    else (s, Returned(Refused))
  }

  // The suspension alone, for an await the journal already has.
  function Resuspend(s: Session, state: State): (Session, Reply) {
    if s.state.Running? then (s.(state := state), Unwound) else (s, Returned(Refused))
  }

  predicate CanAppend(s: Session, idx: nat) {
    !s.state.Missing? && idx == |s.rows|
  }

  function Appended(s: Session, e: Entry): Session {
    s.(rows := s.rows + [e], loaded := s.loaded + [e])
  }

  function Taken(s: Session): Session {
    s.(cursor := s.cursor + 1)
  }

  function SleepCall(s: Session, d: int, now: int): (Session, Reply) {
    var idx, s1 := s.cursor, Taken(s);
    if idx < |s.loaded| then
      var e := s.loaded[idx];
      if !e.kind.Sleep? then (s1, Returned(Misaligned))
      else if e.wakeAt > now then Resuspend(s1, Asleep(e.wakeAt))
      else (s1, Returned(Slept))
    else if d <= 0 then
      if CanAppend(s1, idx) then (Appended(s1, SleepEntry(now + d, true)), Returned(Slept)) else (s1, Returned(Refused))
    else Record(s1, idx, SleepEntry(now + d, false), Asleep(now + d))
  }

  function Memoized(e: Entry, value: Str): Entry {
    e.(done := true, result := value)
  }

  // `out` is what the function returns if the call gets to it, None an error.
  function RunFn(s: Session, idx: nat, out: Option<Str>): (Session, Reply)
    requires idx < |s.loaded|
  {
    match out
    case None => (s, Returned(Erred))
    case Some(value) =>
      (s.(rows := if idx < |s.rows| then s.rows[idx := Memoized(s.rows[idx], value)] else s.rows,
          loaded := s.loaded[idx := Memoized(s.loaded[idx], value)]),
       Returned(Got(value)))
  }

  function OnceCall(s: Session, key: Str, out: Option<Str>): (Session, Reply) {
    var idx, s1 := s.cursor, Taken(s);
    if idx < |s.loaded| then
      var e := s.loaded[idx];
      if !e.kind.Once? || e.key != key then (s1, Returned(Misaligned))
      else if e.done then (s1, Returned(Got(e.result)))
      else RunFn(s1, idx, out)
    else if CanAppend(s1, idx) && idx == |s.loaded| then RunFn(Appended(s1, OnceEntry(key)), idx, out)
    else (s1, Returned(Refused))
  }

  // Whether a RunOnce call gets to its function.
  predicate Invokes(s: Session, key: Str) {
    if s.cursor < |s.loaded| then
      s.loaded[s.cursor].kind.Once? && s.loaded[s.cursor].key == key && !s.loaded[s.cursor].done
    else CanAppend(s, s.cursor) && s.cursor == |s.loaded|
  }

  function WaitResult(e: Entry): Answer {
    if e.timedOut then TimedOut else Delivered(e.payload)
  }

  predicate PastDeadline(e: Entry, now: int) {
    e.deadline > 0 && now >= e.deadline
  }

  // The timeout is claimed in the store; a delivery that was there first wins.
  function ClaimTimeout(s: Session, idx: nat): (Session, Reply) {
    if idx < |s.rows| && !s.rows[idx].done then
      (s.(rows := s.rows[idx := s.rows[idx].(done := true, timedOut := true)]), Returned(TimedOut))
    else if idx < |s.rows| && !s.rows[idx].timedOut then (s, Returned(WaitResult(s.rows[idx])))
    else (s, Returned(TimedOut))
  }

  function WaitCall(s: Session, event: Str, timeout: int, now: int): (Session, Reply) {
    var idx, s1 := s.cursor, Taken(s);
    if idx < |s.loaded| then
      var e := s.loaded[idx];
      if !e.kind.WaitFor? || e.event != event then (s1, Returned(Misaligned))
      else if e.done then (s1, Returned(WaitResult(e)))
      else if PastDeadline(e, now) then ClaimTimeout(s1, idx)
      else Resuspend(s1, Awaiting(event, e.deadline))
    else
      var deadline := if timeout > 0 then now + timeout else 0;
      Record(s1, idx, WaitEntry(event, deadline), Awaiting(event, deadline))
  }

  // ---- a task, run over and over ----------------------------------------------------------

  datatype Action = Sleep(d: int) | RunOnce(key: Str) | WaitFor(event: Str, timeout: int) | Return

  // What a deterministic task does next, given what its calls have returned.
  type Task = seq<Answer> -> Action

  predicate IsError(a: Answer) {
    a.Erred? || a.Refused? || a.Misaligned?
  }

  function Perform(s: Session, a: Action, out: Option<Str>, now: int): (Session, Reply)
    requires !a.Return?
  {
    match a
    case Sleep(d) => SleepCall(s, d, now)
    case RunOnce(key) => OnceCall(s, key, out)
    case WaitFor(event, timeout) => WaitCall(s, event, timeout, now)
  }

  // A call of a RunOnce function, and whether its result was memoized.
  datatype Invocation = Invocation(slot: nat, memoized: bool)

  datatype World = World(
    s: Session,
    active: bool,              // an executor is running the body
    answers: seq<Answer>,      // what its calls have returned so far
    now: int,
    firsts: seq<int>,          // when each journal row was recorded
    makers: seq<seq<Answer>>,  // the answers its recorder had got by then
    invocations: seq<Invocation>)

  const START := World(Session(Ready, [], [], 0), false, [], 0, [], [], [])

  datatype Event =
    | Claimed
    | Called(out: Option<Str>)
    | Finished(retry: bool)
    | Requeued
    | Emitted(event: Str, payload: Str)
    | Cancelled
    | Ticked(now: int)

  predicate Claimable(w: World) {
    match w.s.state
    case Ready => true
    case Asleep(at) => 0 < at <= w.now
    case Awaiting(_, at) => 0 < at <= w.now
    case _ => false
  }

  predicate Allowed(w: World, task: Task, ev: Event) {
    match ev
    case Claimed => Claimable(w)
    case Called(_) => w.active && !task(w.answers).Return?
    case Finished(_) => w.active && task(w.answers).Return?
    case Requeued => w.s.state.Running?
    case Emitted(_, _) => true
    case Cancelled => true
    case Ticked(now) => now >= w.now
  }

  function AfterCall(w: World, a: Action, out: Option<Str>): World
    requires !a.Return?
  {
    var (s1, reply) := Perform(w.s, a, out, w.now);
    var firsts := if |s1.rows| > |w.s.rows| then w.firsts + [w.now] else w.firsts;
    var makers := if |s1.rows| > |w.s.rows| then w.makers + [w.answers] else w.makers;
    var invocations :=
      if a.RunOnce? && Invokes(w.s, a.key) then w.invocations + [Invocation(w.s.cursor, out.Some?)] else w.invocations;
    match reply
    case Unwound => w.(s := s1, active := false, firsts := firsts, makers := makers, invocations := invocations)
    case Returned(answer) => w.(s := s1, answers := w.answers + [answer], firsts := firsts, makers := makers, invocations := invocations)
  }

  predicate AnyAwaits(rows: seq<Entry>, event: Str) {
    exists i :: 0 <= i < |rows| && Awaits(rows[i], event)
  }

  function AfterEmit(s: Session, event: Str, payload: Str): Session {
    if s.state.Over? || s.state.Missing? then s
    else
      s.(rows := DeliverJournal(s.rows, event, payload),
         state := if (s.state.Asleep? || s.state.Awaiting?) && AnyAwaits(s.rows, event) then Ready else s.state)
  }

  function Step(w: World, task: Task, ev: Event): World
    requires Allowed(w, task, ev)
  {
    match ev
    case Claimed => w.(s := w.s.(state := State.Running, loaded := w.s.rows, cursor := 0), active := true, answers := [])
    case Called(out) => AfterCall(w, task(w.answers), out)
    case Finished(retry) =>
      w.(active := false, s := if w.s.state.Running? then w.s.(state := if retry then Ready else Over) else w.s)
    case Requeued => w.(active := false, s := w.s.(state := Ready))
    case Emitted(event, payload) => w.(s := AfterEmit(w.s, event, payload))
    case Cancelled => w.(s := if w.s.state.Missing? then w.s else w.s.(state := Over))
    case Ticked(now) => w.(now := now)
  }

  // The world after some events; an event that is not allowed does not happen.
  function Exec(task: Task, evs: seq<Event>): World {
    if evs == [] then START
    else
      var w := Exec(task, evs[..|evs| - 1]);
      if Allowed(w, task, evs[|evs| - 1]) then Step(w, task, evs[|evs| - 1]) else w
  }
}
