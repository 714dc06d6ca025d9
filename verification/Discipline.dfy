// What the calls of a consistent task write, seen from the store: it suspends behind
// settled waits only, and claims a timeout only on a wait that is overdue.

module Discipline {
  import opened Names
  import opened Schema
  import Durable
  import Replay
  import Waits

  // The columns a suspended state stands for.
  function WaitOf(s: Durable.State): Wait {
    match s
    case Awaiting(event, _) => EventWait(event)
    case Asleep(_) => SleepWait
    case _ => NoWait
  }

  function ResumeAt(s: Durable.State): int {
    match s
    case Awaiting(_, at) => at
    case Asleep(at) => at
    case _ => 0
  }

  lemma SuspensionRecorded(s: Durable.Session, a: Durable.Action, out: Option<Str>, now: int)
    requires !a.Return? && Durable.Perform(s, a, out, now).1.Unwound?
    ensures var s1 := Durable.Perform(s, a, out, now).0;
      if s.cursor < |s.loaded| then
        s1.rows == s.rows && Waits.Resumable(s.loaded[s.cursor], WaitOf(s1.state), ResumeAt(s1.state), now)
      else
        && |s1.rows| == |s.rows| + 1 && s.cursor == |s.rows|
        && Waits.Recordable(s1.rows[|s.rows|], WaitOf(s1.state), ResumeAt(s1.state), now)
  {
  }

  // A suspension records a new await behind nothing but settled ones, or resumes
  // an await of the loaded journal.
  lemma SuspensionsByTheBook(w: Durable.World, task: Durable.Task, out: Option<Str>)
    requires Replay.Inv(w, task) && Replay.Consistent(task) && Replay.Answerable(task, w.answers) && w.active && !task(w.answers).Return?
    requires Durable.Perform(w.s, task(w.answers), out, w.now).1.Unwound?
    ensures var s1 := Durable.Perform(w.s, task(w.answers), out, w.now).0;
      if s1.rows == w.s.rows then
        exists idx | 0 <= idx < |w.s.loaded| :: Waits.Resumable(w.s.loaded[idx], WaitOf(s1.state), ResumeAt(s1.state), w.now)
      else
        && w.s.cursor == |w.s.loaded| && |s1.rows| == |w.s.rows| + 1
        && Waits.Recordable(s1.rows[|w.s.rows|], WaitOf(s1.state), ResumeAt(s1.state), w.now)
        && Waits.WaitsDone(w.s.rows, |w.s.rows|)
  {
    SuspensionRecorded(w.s, task(w.answers), out, w.now);
    Replay.ConsistentFits(w, task, out);
    Replay.CallAnswers(w, task, out);
    Replay.MisalignedOnlyIf(w.s, task(w.answers), out, w.now);
    Replay.NextFaces(w, task);
    if w.s.cursor == |w.s.rows| {
      PassedWaits(w.s.rows, w.now);
    }
  }

  lemma PassedWaits(rows: seq<Schema.Entry>, now: int)
    requires forall i | 0 <= i < |rows| :: Replay.Passed(rows[i], now)
    ensures Waits.WaitsDone(rows, |rows|)
  {
    forall i | 0 <= i < |rows| && rows[i].kind.WaitFor? ensures rows[i].done {
      assert Replay.Passed(rows[i], now);
    }
  }

  // A timeout is claimed only on a wait that the loaded journal holds undone and
  // past its deadline.
  lemma TimeoutsByTheBook(s: Durable.Session, event: Str, timeout: int, now: int)
    requires Durable.WaitCall(s, event, timeout, now).1.Returned?
    requires Durable.WaitCall(s, event, timeout, now).0.rows != s.rows
    ensures s.cursor < |s.loaded| && s.loaded[s.cursor].kind.WaitFor? && !s.loaded[s.cursor].done
    ensures Waits.Overdue(s.loaded[s.cursor], now)
    ensures s.cursor < |s.rows| && !s.rows[s.cursor].done
  {
  }
}
