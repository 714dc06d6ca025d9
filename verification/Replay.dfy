// What replaying a deterministic task from the top guarantees, and for exactly
// which tasks.

module Replay {
  import opened Names
  import opened Schema
  import opened Transitions
  import opened Durable

  // ---- the condition --------------------------------------------------------------------------

  predicate Clean(answers: seq<Answer>) {
    forall i | 0 <= i < |answers| :: !answers[i].Refused? && !answers[i].Misaligned?
  }

  ghost predicate Reaches(task: Task, evs: seq<Event>, answers: seq<Answer>) {
    var w := Exec(task, evs);
    w.active && w.answers == answers
  }

  // The answers an invocation of the task can have got.
  ghost predicate Answerable(task: Task, answers: seq<Answer>) {
    exists evs :: Reaches(task, evs, answers)
  }

  // The same answers, but for RunOnce calls that failed and now succeed.
  predicate Upgraded(p: seq<Answer>, q: seq<Answer>) {
    |p| == |q| && forall i | 0 <= i < |p| :: q[i] == p[i] || (p[i].Erred? && q[i].Got?)
  }

  // Two calls one journal row can serve.
  predicate Alike(a: Action, b: Action) {
    match a
    case Sleep(_) => b.Sleep?
    case RunOnce(key) => b.RunOnce? && b.key == key
    case WaitFor(event, _) => b.WaitFor? && b.event == event
    case Return => false
  }

  // The same durable calls in the same order: whether a RunOnce failed or succeeded
  // may end the task early, but does not change what it calls next.
  ghost predicate Consistent(task: Task) {
    forall p, q {:trigger Upgraded(p, q)} |
      Answerable(task, p) && Answerable(task, q) && Clean(p) && Clean(q) && Upgraded(p, q) ::
      task(p).Return? || task(q).Return? || Alike(task(p), task(q))
  }

  ghost predicate NeverMisaligns(task: Task) {
    forall evs, out {:trigger Allowed(Exec(task, evs), task, Called(out))} | Allowed(Exec(task, evs), task, Called(out)) ::
      Perform(Exec(task, evs).s, task(Exec(task, evs).answers), out, Exec(task, evs).now).1 != Returned(Misaligned)
  }

  // ---- the invariant --------------------------------------------------------------------------

  // The await is behind the body: nothing about it can change any more.
  predicate Settled(e: Entry, now: int) {
    match e.kind
    case Sleep => e.wakeAt <= now
    case Once => e.done
    case WaitFor => e.done
  }

  function AnswerOf(e: Entry): Answer {
    match e.kind
    case Sleep => Slept
    case Once => Got(e.result)
    case WaitFor => WaitResult(e)
  }

  predicate Matches(e: Entry, a: Action) {
    match a
    case Sleep(_) => e.kind.Sleep?
    case RunOnce(key) => e.kind.Once? && e.key == key
    case WaitFor(event, _) => e.kind.WaitFor? && e.event == event
    case Return => false
  }

  // A body gets past a RunOnce that failed, but not past an await that is open.
  predicate Passed(e: Entry, now: int) {
    e.kind.Once? || Settled(e, now)
  }

  predicate FrontPassed(rows: seq<Entry>, now: int) {
    forall i | 0 <= i < |rows| - 1 :: Passed(rows[i], now)
  }

  // And so it was for the rows ahead, when they were loaded.
  predicate AheadPassed(loaded: seq<Entry>, cursor: nat, now: int) {
    forall i | cursor <= i < |loaded| - 1 :: Passed(loaded[i], now)
  }

  // The loaded copy lags behind the rows only in waits it takes for undone.
  predicate Tracks(loaded: seq<Entry>, rows: seq<Entry>) {
    && |loaded| == |rows|
    && forall i | 0 <= i < |rows| ::
         SameAwait(loaded[i], rows[i]) && (loaded[i].done || !rows[i].kind.WaitFor? ==> loaded[i] == rows[i])
  }

  // An answer that its row stands by.
  predicate Backed(x: Answer, e: Entry, now: int) {
    Settled(e, now) && x == AnswerOf(e)
  }

  // What a body may have got from a row, if the row is as it is now or as it was
  // before a RunOnce was memoized.
  predicate Below(answers: seq<Answer>, rows: seq<Entry>, now: int) {
    && |answers| <= |rows|
    && forall i | 0 <= i < |answers| :: Backed(answers[i], rows[i], now) || (rows[i].kind.Once? && answers[i].Erred?)
  }

  // And what it has got from the rows as they are.
  predicate Current(answers: seq<Answer>, rows: seq<Entry>, now: int) {
    && Below(answers, rows, now)
    && forall i | 0 <= i < |answers| && answers[i].Erred? :: rows[i].kind.Once? && !rows[i].done
  }

  // When a wait that was first called at `first` gives up; 0 is never.
  function GivesUpAt(first: int, timeout: int): int {
    if timeout > 0 then first + timeout else 0
  }

  // Each row was recorded by a call of the task.
  ghost predicate Made(task: Task, rows: seq<Entry>, makers: seq<seq<Answer>>, firsts: seq<int>) {
    && |makers| == |rows| == |firsts|
    && forall i | 0 <= i < |rows| ::
         && Answerable(task, makers[i]) && Matches(rows[i], task(makers[i]))
         && (rows[i].kind.Sleep? ==> task(makers[i]).Sleep? && rows[i].wakeAt == firsts[i] + task(makers[i]).d)
         && (rows[i].kind.WaitFor? ==> task(makers[i]).WaitFor? && rows[i].deadline == GivesUpAt(firsts[i], task(makers[i]).timeout))
  }

  predicate MadeInOrder(rows: seq<Entry>, makers: seq<seq<Answer>>, now: int) {
    |makers| == |rows| && forall i | 0 <= i < |rows| :: |makers[i]| == i && Below(makers[i], rows, now)
  }

  // The calls behind the body are those the rows record.
  ghost predicate Performed(task: Task, answers: seq<Answer>, rows: seq<Entry>) {
    forall i | 0 <= i < |answers| && i < |rows| :: Matches(rows[i], task(answers[..i]))
  }

  predicate StandsBy(answers: seq<Answer>, rows: seq<Entry>, now: int) {
    forall i | 0 <= i < |answers| && !IsError(answers[i]) :: i < |rows| && Backed(answers[i], rows[i], now)
  }

  // Only an executor whose step has been cancelled under it is refused a write, and
  // it has the whole journal behind it then.
  ghost predicate Attached(w: World, task: Task) {
    && (w.s.state.Running? || w.s.state.Over?)
    && Tracks(w.s.loaded, w.s.rows)
    && w.s.cursor == |w.answers|
    && StandsBy(w.answers, w.s.rows, w.now)
    && Performed(task, w.answers, w.s.rows)
    && Misaligned !in w.answers
    && if Clean(w.answers) then Current(w.answers, w.s.rows, w.now) && AheadPassed(w.s.loaded, w.s.cursor, w.now)
       else w.s.state.Over? && w.s.cursor >= |w.s.rows|
  }

  // A memoized result is the last word on its slot.
  predicate Remembers(invocations: seq<Invocation>, rows: seq<Entry>) {
    && (forall i | 0 <= i < |invocations| :: invocations[i].slot < |rows|
          && (invocations[i].memoized ==> rows[invocations[i].slot].kind.Once? && rows[invocations[i].slot].done))
    && forall i, j | 0 <= i < j < |invocations| && invocations[i].slot == invocations[j].slot :: !invocations[i].memoized
  }

  // Some invocation may still replay the rows.
  predicate Replayable(w: World) {
    !w.s.state.Over? || (w.active && Clean(w.answers))
  }

  // Only a wait past its deadline times out.
  predicate Timely(rows: seq<Entry>, now: int) {
    forall i | 0 <= i < |rows| && rows[i].timedOut :: rows[i].kind.WaitFor? && rows[i].done && 0 < rows[i].deadline <= now
  }

  // A suspended step sleeps or waits as the last row its body got to says.
  predicate Bound(s: Session) {
    match s.state
    case Asleep(at) =>
      0 < s.cursor <= |s.rows| && s.rows[s.cursor - 1].kind.Sleep? && s.rows[s.cursor - 1].wakeAt == at > 0
    case Awaiting(event, at) =>
      && 0 < s.cursor <= |s.rows| && s.rows[s.cursor - 1].kind.WaitFor?
      && s.rows[s.cursor - 1].event == event && s.rows[s.cursor - 1].deadline == at
    case _ => true
  }

  ghost predicate Inv(w: World, task: Task) {
    && w.now >= 0
    && Timely(w.s.rows, w.now) && Bound(w.s) && (forall i | 0 <= i < |w.firsts| :: w.firsts[i] >= 0)
    && Made(task, w.s.rows, w.makers, w.firsts)
    && (Replayable(w) ==> FrontPassed(w.s.rows, w.now) && MadeInOrder(w.s.rows, w.makers, w.now))
    && (w.active ==> Attached(w, task))
    && (w.s.state.Running? ==> w.active)
    && Remembers(w.invocations, w.s.rows)
  }

  // ---- rows that change and rows that do not -----------------------------------------------------

  // Settled rows stay as they are.
  predicate Keeps(rows: seq<Entry>, rows1: seq<Entry>, now: int) {
    |rows| <= |rows1| && forall i | 0 <= i < |rows| && Settled(rows[i], now) :: rows1[i] == rows[i]
  }

  // No row is added and no await changes.
  predicate SameRows(rows: seq<Entry>, rows1: seq<Entry>, now: int) {
    && |rows1| == |rows| && Keeps(rows, rows1, now)
    && forall i | 0 <= i < |rows| :: SameAwait(rows[i], rows1[i])
  }

  // The call of a row joins the ones before it.
  predicate PushedRow(rows: seq<Entry>, rows1: seq<Entry>, a: Action, now: int) {
    && |rows1| == |rows| + 1 && rows1[..|rows|] == rows
    && Matches(rows1[|rows|], a)
    && (a.Sleep? ==> rows1[|rows|].wakeAt == now + a.d)
    && (a.WaitFor? ==> rows1[|rows|].deadline == GivesUpAt(now, a.timeout))
  }

  lemma SameRowsKeepMade(task: Task, rows: seq<Entry>, rows1: seq<Entry>, makers: seq<seq<Answer>>, firsts: seq<int>, now: int)
    requires SameRows(rows, rows1, now) && Made(task, rows, makers, firsts)
    ensures Made(task, rows1, makers, firsts)
  {
    forall i | 0 <= i < |rows1| ensures Matches(rows1[i], task(makers[i])) {
      assert SameAwait(rows[i], rows1[i]);
    }
  }

  lemma SameRowsKeepBelow(answers: seq<Answer>, rows: seq<Entry>, rows1: seq<Entry>, now: int)
    requires SameRows(rows, rows1, now) && Below(answers, rows, now)
    ensures Below(answers, rows1, now)
  {
    forall i | 0 <= i < |answers| ensures Backed(answers[i], rows1[i], now) || (rows1[i].kind.Once? && answers[i].Erred?) {
      assert SameAwait(rows[i], rows1[i]);
    }
  }

  lemma SameRowsKeepOrder(rows: seq<Entry>, rows1: seq<Entry>, makers: seq<seq<Answer>>, now: int)
    requires SameRows(rows, rows1, now) && FrontPassed(rows, now) && MadeInOrder(rows, makers, now)
    ensures FrontPassed(rows1, now) && MadeInOrder(rows1, makers, now)
  {
    forall i | 0 <= i < |rows1| ensures Below(makers[i], rows1, now) {
      SameRowsKeepBelow(makers[i], rows, rows1, now);
    }
    forall i | 0 <= i < |rows1| - 1 ensures Passed(rows1[i], now) {
      assert Passed(rows[i], now) && SameAwait(rows[i], rows1[i]);
    }
  }

  lemma PushedRowKeepsMade(task: Task, rows: seq<Entry>, rows1: seq<Entry>, makers: seq<seq<Answer>>, answers: seq<Answer>,
                           firsts: seq<int>, now: int)
    requires Made(task, rows, makers, firsts) && PushedRow(rows, rows1, task(answers), now) && Answerable(task, answers)
    ensures Made(task, rows1, makers + [answers], firsts + [now])
  {
    var makers1 := makers + [answers];
    forall i | 0 <= i < |rows1| ensures Answerable(task, makers1[i]) && Matches(rows1[i], task(makers1[i])) {
      if i < |rows| {
        assert rows1[i] == rows[i];
      }
    }
  }

  lemma PushedRowKeepsOrder(rows: seq<Entry>, rows1: seq<Entry>, makers: seq<seq<Answer>>, answers: seq<Answer>, a: Action, now: int)
    requires MadeInOrder(rows, makers, now) && PushedRow(rows, rows1, a, now)
    requires |answers| == |rows| && Below(answers, rows, now) && forall i | 0 <= i < |rows| :: Passed(rows[i], now)
    ensures FrontPassed(rows1, now) && MadeInOrder(rows1, makers + [answers], now)
  {
    var makers1 := makers + [answers];
    forall i | 0 <= i < |rows1| ensures |makers1[i]| == i && Below(makers1[i], rows1, now) {
      assert Below(makers1[i], rows, now);
      forall j | 0 <= j < |makers1[i]| ensures rows1[j] == rows[j] {}
    }
    forall i | 0 <= i < |rows1| - 1 ensures Passed(rows1[i], now) {
      assert rows1[i] == rows[i];
    }
  }

  // ---- one call -------------------------------------------------------------------------------------

  // An executor at its next call: its own slot, if the journal has it, was recorded
  // by such a call, and if not the body got past every slot behind it; or it was
  // refused before.
  predicate Facing(s: Session, a: Action, now: int) {
    && (s.state.Running? || s.state.Over?) && Tracks(s.loaded, s.rows)
    && if s.cursor < |s.rows| then Matches(s.rows[s.cursor], a) && AheadPassed(s.loaded, s.cursor, now)
       else if s.state.Over? then true
       else s.cursor == |s.rows| && forall i | 0 <= i < |s.rows| :: Passed(s.rows[i], now)
  }

  // What a call that returns or unwinds must leave.
  predicate Answered(s: Session, now: int, s1: Session, reply: Reply) {
    && s1.cursor == s.cursor + 1
    && (reply.Unwound? ==> s.state.Running? && !s1.state.Running? && !s1.state.Over? && Bound(s1))
    && (reply.Returned? ==>
          && s1.state == s.state
          && Tracks(s1.loaded, s1.rows)
          && (AheadPassed(s.loaded, s.cursor, now) ==> AheadPassed(s1.loaded, s1.cursor, now))
          && !reply.answer.Misaligned?
          && (reply.answer.Refused? ==> s.state.Over? && s1.cursor >= |s1.rows|)
          && (reply.answer.Erred? ==> s.cursor < |s1.rows| && s1.rows[s.cursor].kind.Once? && !s1.rows[s.cursor].done)
          && (!IsError(reply.answer) ==> s.cursor < |s1.rows| && Backed(reply.answer, s1.rows[s.cursor], now)))
  }

  predicate Extends(s: Session, a: Action, now: int, rows1: seq<Entry>) {
    || (SameRows(s.rows, rows1, now) && (s.cursor < |s.rows| ==> Matches(rows1[s.cursor], a))
        && forall i | 0 <= i < |s.rows| && i != s.cursor :: rows1[i] == s.rows[i])
    || (s.cursor == |s.rows| && PushedRow(s.rows, rows1, a, now))
  }

  predicate Outcome(s: Session, a: Action, now: int, s1: Session, reply: Reply) {
    && Answered(s, now, s1, reply) && Extends(s, a, now, s1.rows)
    && (Timely(s.rows, now) ==> Timely(s1.rows, now))
  }

  lemma SleepAnswers(s: Session, d: int, now: int)
    requires Facing(s, Action.Sleep(d), now) && now >= 0
    ensures var (s1, reply) := SleepCall(s, d, now); Outcome(s, Action.Sleep(d), now, s1, reply)
  {
  }

  lemma OnceAnswers(s: Session, key: Str, out: Option<Str>, now: int)
    requires Facing(s, RunOnce(key), now) && now >= 0
    ensures var (s1, reply) := OnceCall(s, key, out); Outcome(s, RunOnce(key), now, s1, reply)
  {
  }

  lemma WaitAnswers(s: Session, event: Str, timeout: int, now: int)
    requires Facing(s, Action.WaitFor(event, timeout), now) && now >= 0
    ensures var (s1, reply) := WaitCall(s, event, timeout, now); Outcome(s, Action.WaitFor(event, timeout), now, s1, reply)
  {
  }

  lemma FacingAnswers(s: Session, a: Action, out: Option<Str>, now: int)
    requires !a.Return? && Facing(s, a, now) && now >= 0
    ensures var (s1, reply) := Perform(s, a, out, now); Outcome(s, a, now, s1, reply)
  {
    match a
    case Sleep(d) => SleepAnswers(s, d, now);
    case RunOnce(key) => OnceAnswers(s, key, out, now);
    case WaitFor(event, timeout) => WaitAnswers(s, event, timeout, now);
  }

  // The journal has the call's slot, and it is another call's.
  lemma MisalignedOnlyIf(s: Session, a: Action, out: Option<Str>, now: int)
    requires !a.Return? && Tracks(s.loaded, s.rows)
    ensures Perform(s, a, out, now).1 == Returned(Misaligned) <==> s.cursor < |s.rows| && !Matches(s.rows[s.cursor], a)
  {
  }

  // ---- every event keeps the invariant -------------------------------------------------------------

  lemma NextFaces(w: World, task: Task)
    requires Inv(w, task) && w.active && !task(w.answers).Return?
    requires w.s.cursor < |w.s.rows| ==> Matches(w.s.rows[w.s.cursor], task(w.answers))
    ensures Facing(w.s, task(w.answers), w.now)
  {
    if Clean(w.answers) {
      forall i | 0 <= i < |w.answers| ensures Passed(w.s.rows[i], w.now) {
        assert Backed(w.answers[i], w.s.rows[i], w.now) || w.s.rows[i].kind.Once?;
      }
    }
  }

  // A call that is not misaligned answers as its row says.
  lemma CallAnswers(w: World, task: Task, out: Option<Str>)
    requires Inv(w, task) && w.active && !task(w.answers).Return?
    requires Perform(w.s, task(w.answers), out, w.now).1 != Returned(Misaligned)
    ensures var (s1, reply) := Perform(w.s, task(w.answers), out, w.now); Outcome(w.s, task(w.answers), w.now, s1, reply)
  {
    MisalignedOnlyIf(w.s, task(w.answers), out, w.now);
    NextFaces(w, task);
    FacingAnswers(w.s, task(w.answers), out, w.now);
  }

  lemma OutcomeMade(w: World, task: Task, rows1: seq<Entry>)
    requires Inv(w, task) && w.active && Answerable(task, w.answers) && Extends(w.s, task(w.answers), w.now, rows1)
    ensures if |rows1| > |w.s.rows| then Made(task, rows1, w.makers + [w.answers], w.firsts + [w.now])
            else Made(task, rows1, w.makers, w.firsts)
  {
    if |rows1| > |w.s.rows| {
      PushedRowKeepsMade(task, w.s.rows, rows1, w.makers, w.answers, w.firsts, w.now);
    } else {
      SameRowsKeepMade(task, w.s.rows, rows1, w.makers, w.firsts, w.now);
    }
  }

  lemma OutcomeOrder(w: World, task: Task, rows1: seq<Entry>)
    requires Inv(w, task) && w.active && Clean(w.answers) && Extends(w.s, task(w.answers), w.now, rows1)
    ensures FrontPassed(rows1, w.now)
    ensures MadeInOrder(rows1, if |rows1| > |w.s.rows| then w.makers + [w.answers] else w.makers, w.now)
  {
    if |rows1| > |w.s.rows| {
      forall i | 0 <= i < |w.s.rows| ensures Passed(w.s.rows[i], w.now) {
        assert Backed(w.answers[i], w.s.rows[i], w.now) || w.s.rows[i].kind.Once?;
      }
      PushedRowKeepsOrder(w.s.rows, rows1, w.makers, w.answers, task(w.answers), w.now);
    } else {
      SameRowsKeepOrder(w.s.rows, rows1, w.makers, w.now);
    }
  }

  lemma ExtendsKeeps(s: Session, a: Action, now: int, rows1: seq<Entry>)
    requires Extends(s, a, now, rows1)
    ensures Keeps(s.rows, rows1, now)
    ensures forall i | 0 <= i < |s.rows| && i != s.cursor :: rows1[i] == s.rows[i]
    ensures |s.rows| <= |rows1| && (|rows1| > |s.rows| ==> s.cursor == |s.rows| && |rows1| == |s.rows| + 1)
    ensures forall i | 0 <= i < |s.rows| :: SameAwait(s.rows[i], rows1[i])
    ensures s.cursor < |rows1| ==> Matches(rows1[s.cursor], a)
  {
    if |rows1| > |s.rows| {
      forall i | 0 <= i < |s.rows| ensures rows1[i] == s.rows[i] {
        assert rows1[..|s.rows|][i] == rows1[i];
      }
    }
  }

  // The answer joins the ones before it.
  lemma CurrentGrows(answers: seq<Answer>, x: Answer, s: Session, rows1: seq<Entry>, now: int)
    requires Current(answers, s.rows, now) && s.cursor == |answers| < |rows1|
    requires Keeps(s.rows, rows1, now) && forall i | 0 <= i < |s.rows| && i != s.cursor :: rows1[i] == s.rows[i]
    requires if x.Erred? then rows1[s.cursor].kind.Once? && !rows1[s.cursor].done else Backed(x, rows1[s.cursor], now)
    ensures Current(answers + [x], rows1, now)
  {
  }

  lemma StandsByGrows(answers: seq<Answer>, x: Answer, rows: seq<Entry>, rows1: seq<Entry>, now: int)
    requires StandsBy(answers, rows, now) && Keeps(rows, rows1, now)
    requires !IsError(x) ==> |answers| < |rows1| && Backed(x, rows1[|answers|], now)
    ensures StandsBy(answers + [x], rows1, now)
  {
  }

  lemma PerformedGrows(task: Task, answers: seq<Answer>, x: Answer, rows: seq<Entry>, rows1: seq<Entry>)
    requires Performed(task, answers, rows) && |rows| <= |rows1| && (|rows| < |rows1| ==> |answers| == |rows| == |rows1| - 1)
    requires forall i | 0 <= i < |rows| :: SameAwait(rows[i], rows1[i])
    requires |answers| < |rows1| ==> Matches(rows1[|answers|], task(answers))
    ensures Performed(task, answers + [x], rows1)
  {
    var all := answers + [x];
    forall i | 0 <= i < |all| && i < |rows1| ensures Matches(rows1[i], task(all[..i])) {
      if i < |answers| {
        assert all[..i] == answers[..i] && SameAwait(rows[i], rows1[i]);
      } else {
        assert all[..i] == answers;
      }
    }
  }

  lemma StaysAttached(w: World, task: Task, out: Option<Str>)
    requires w.active && Attached(w, task) && !task(w.answers).Return?
    requires var (s1, reply) := Perform(w.s, task(w.answers), out, w.now); Outcome(w.s, task(w.answers), w.now, s1, reply)
    ensures var w1 := AfterCall(w, task(w.answers), out);
      && (w1.active ==> Attached(w1, task)) && (w1.s.state.Running? ==> w1.active)
      && (Replayable(w1) ==> Clean(w.answers))
  {
    var a := task(w.answers);
    var (s1, reply) := Perform(w.s, a, out, w.now);
    ExtendsKeeps(w.s, a, w.now, s1.rows);
    if reply.Returned? {
      var x := reply.answer;
      var all := w.answers + [x];
      StandsByGrows(w.answers, x, w.s.rows, s1.rows, w.now);
      PerformedGrows(task, w.answers, x, w.s.rows, s1.rows);
      assert Misaligned !in all;
      assert all[|w.answers|] == x;
      CleanGrows(w.answers, x);
      if Clean(all) {
        CurrentGrows(w.answers, x, w.s, s1.rows, w.now);
      }
    }
  }

  lemma CleanGrows(answers: seq<Answer>, x: Answer)
    ensures Clean(answers + [x]) <==> Clean(answers) && !x.Refused? && !x.Misaligned?
  {
    var all := answers + [x];
    assert all[|answers|] == x && forall i | 0 <= i < |answers| :: all[i] == answers[i];
  }

  // A call that gets to its function finds no memoized result at its slot, and
  // leaves one there if the function succeeds.
  lemma InvokedOnce(w: World, task: Task, key: Str, out: Option<Str>)
    requires Inv(w, task) && w.active && task(w.answers) == RunOnce(key) && Invokes(w.s, key)
    ensures var rows1 := OnceCall(w.s, key, out).0.rows;
      && w.s.cursor < |rows1| && rows1[w.s.cursor].kind.Once? && (out.Some? ==> rows1[w.s.cursor].done)
    ensures forall i | 0 <= i < |w.invocations| && w.invocations[i].slot == w.s.cursor :: !w.invocations[i].memoized
  {
  }

  lemma InvocationAdded(invocations: seq<Invocation>, rows: seq<Entry>, c: nat, memoized: bool)
    requires Remembers(invocations, rows) && c < |rows| && (memoized ==> rows[c].kind.Once? && rows[c].done)
    requires forall i | 0 <= i < |invocations| && invocations[i].slot == c :: !invocations[i].memoized
    ensures Remembers(invocations + [Invocation(c, memoized)], rows)
  {
  }

  lemma InvocationsKept(w: World, task: Task, out: Option<Str>)
    requires Inv(w, task) && w.active && !task(w.answers).Return?
    requires Perform(w.s, task(w.answers), out, w.now).1 != Returned(Misaligned)
    ensures var w1 := AfterCall(w, task(w.answers), out); Remembers(w1.invocations, w1.s.rows)
  {
    var a := task(w.answers);
    var rows1 := Perform(w.s, a, out, w.now).0.rows;
    CallAnswers(w, task, out);
    ExtendsKeeps(w.s, a, w.now, rows1);
    MemoKept(w.invocations, w.s.rows, rows1, w.now);
    if a.RunOnce? && Invokes(w.s, a.key) {
      InvokedOnce(w, task, a.key, out);
      InvocationAdded(w.invocations, rows1, w.s.cursor, out.Some?);
    }
  }

  lemma MemoKept(invocations: seq<Invocation>, rows: seq<Entry>, rows1: seq<Entry>, now: int)
    requires Remembers(invocations, rows) && Keeps(rows, rows1, now)
    ensures Remembers(invocations, rows1)
  {
    forall i | 0 <= i < |invocations| && invocations[i].memoized
      ensures rows1[invocations[i].slot].kind.Once? && rows1[invocations[i].slot].done
    {
      assert Settled(rows[invocations[i].slot], now);
    }
  }

  lemma CalledKeeps(w: World, task: Task, out: Option<Str>)
    requires Inv(w, task) && w.active && !task(w.answers).Return? && Answerable(task, w.answers)
    requires Perform(w.s, task(w.answers), out, w.now).1 != Returned(Misaligned)
    ensures Inv(AfterCall(w, task(w.answers), out), task)
  {
    var rows1 := Perform(w.s, task(w.answers), out, w.now).0.rows;
    CallAnswers(w, task, out);
    OutcomeMade(w, task, rows1);
    if Clean(w.answers) {
      OutcomeOrder(w, task, rows1);
    }
    InvocationsKept(w, task, out);
    StaysAttached(w, task, out);
  }

  lemma ClaimedKeeps(w: World, task: Task)
    requires Inv(w, task) && Durable.Claimable(w)
    ensures Inv(Durable.Step(w, task, Claimed), task)
  {
  }

  lemma LaterKeepsOrder(rows: seq<Entry>, makers: seq<seq<Answer>>, now: int, later: int)
    requires FrontPassed(rows, now) && MadeInOrder(rows, makers, now) && now <= later
    ensures FrontPassed(rows, later) && MadeInOrder(rows, makers, later)
  {
    forall i | 0 <= i < |rows| ensures Below(makers[i], rows, later) {
      LaterKeepsBelow(makers[i], rows, now, later);
    }
    forall i | 0 <= i < |rows| - 1 ensures Passed(rows[i], later) {
      assert Passed(rows[i], now);
    }
  }

  lemma LaterKeepsBelow(answers: seq<Answer>, rows: seq<Entry>, now: int, later: int)
    requires Below(answers, rows, now) && now <= later
    ensures Below(answers, rows, later)
  {
    forall i | 0 <= i < |answers| ensures Backed(answers[i], rows[i], later) || (rows[i].kind.Once? && answers[i].Erred?) {
      assert Backed(answers[i], rows[i], now) || (rows[i].kind.Once? && answers[i].Erred?);
    }
  }

  lemma TickedKeeps(w: World, task: Task, now: int)
    requires Inv(w, task) && now >= w.now
    ensures Inv(w.(now := now), task)
  {
    if Replayable(w) {
      LaterKeepsOrder(w.s.rows, w.makers, w.now, now);
    }
    if w.active {
      assert StandsBy(w.answers, w.s.rows, now);
      if Clean(w.answers) {
        LaterKeepsBelow(w.answers, w.s.rows, w.now, now);
        forall i | w.s.cursor <= i < |w.s.loaded| - 1 ensures Passed(w.s.loaded[i], now) {
          assert Passed(w.s.loaded[i], w.now);
        }
      }
    }
  }

  // A delivery completes open waits and touches nothing settled.
  lemma DeliverySameRows(rows: seq<Entry>, event: Str, payload: Str, now: int)
    ensures SameRows(rows, DeliverJournal(rows, event, payload), now)
    ensures forall i | 0 <= i < |rows| && rows[i].kind.Once? :: DeliverJournal(rows, event, payload)[i] == rows[i]
  {
  }

  lemma DeliveryKeepsAttached(w: World, task: Task, event: Str, payload: Str)
    requires Inv(w, task) && w.active && w.s.state.Running?
    ensures Attached(w.(s := w.s.(rows := DeliverJournal(w.s.rows, event, payload))), task)
  {
    var rows1 := DeliverJournal(w.s.rows, event, payload);
    DeliverySameRows(w.s.rows, event, payload, w.now);
    SameRowsKeepBelow(w.answers, w.s.rows, rows1, w.now);
    assert Performed(task, w.answers, rows1) by {
      forall i | 0 <= i < |w.answers| && i < |rows1| ensures Matches(rows1[i], task(w.answers[..i])) {
        assert SameAwait(w.s.rows[i], rows1[i]);
      }
    }
    assert StandsBy(w.answers, rows1, w.now);
    assert Tracks(w.s.loaded, rows1);
  }

  lemma DeliveryKeepsTimely(s: Session, event: Str, payload: Str, now: int)
    requires Timely(s.rows, now) && Bound(s)
    ensures var rows1 := DeliverJournal(s.rows, event, payload); Timely(rows1, now) && Bound(s.(rows := rows1))
  {
  }

  lemma EmittedKeeps(w: World, task: Task, event: Str, payload: Str)
    requires Inv(w, task)
    ensures Inv(w.(s := AfterEmit(w.s, event, payload)), task)
  {
    if !w.s.state.Over? && !w.s.state.Missing? {
      var rows1 := DeliverJournal(w.s.rows, event, payload);
      DeliverySameRows(w.s.rows, event, payload, w.now);
      SameRowsKeepMade(task, w.s.rows, rows1, w.makers, w.firsts, w.now);
      SameRowsKeepOrder(w.s.rows, rows1, w.makers, w.now);
      MemoKept(w.invocations, w.s.rows, rows1, w.now);
      DeliveryKeepsTimely(w.s, event, payload, w.now);
      if w.active {
        DeliveryKeepsAttached(w, task, event, payload);
      }
    }
  }

  lemma StepKeeps(w: World, task: Task, ev: Event)
    requires Inv(w, task) && Allowed(w, task, ev) && (w.active ==> Answerable(task, w.answers))
    requires ev.Called? ==> Perform(w.s, task(w.answers), ev.out, w.now).1 != Returned(Misaligned)
    ensures Inv(Durable.Step(w, task, ev), task)
  {
    if ev.Claimed? {
      ClaimedKeeps(w, task);
    } else if ev.Called? {
      CalledKeeps(w, task, ev.out);
    } else if ev.Emitted? {
      EmittedKeeps(w, task, ev.event, ev.payload);
    } else if ev.Ticked? {
      TickedKeeps(w, task, ev.now);
    }
  }

  lemma ReachedNow(task: Task, evs: seq<Event>)
    requires Exec(task, evs).active
    ensures Answerable(task, Exec(task, evs).answers)
  {
    assert Reaches(task, evs, Exec(task, evs).answers);
  }

  lemma {:induction false} CallsGoOn(task: Task, evs: seq<Event>)
    requires Exec(task, evs).active
    ensures var q := Exec(task, evs).answers; forall j | 0 <= j < |q| :: !task(q[..j]).Return? && Answerable(task, q[..j])
  {
    var front, ev := evs[..|evs| - 1], evs[|evs| - 1];
    var w, q := Exec(task, front), Exec(task, evs).answers;
    if w.active && !(ev.Claimed? && Allowed(w, task, ev)) {
      CallsGoOn(task, front);
      ReachedNow(task, front);
      assert q[..|w.answers|] == w.answers;
      forall j | 0 <= j < |w.answers| ensures q[..j] == w.answers[..j] {}
    }
  }

  lemma NoReturnBefore(task: Task, q: seq<Answer>)
    requires Answerable(task, q)
    ensures forall j | 0 <= j < |q| :: !task(q[..j]).Return? && Answerable(task, q[..j])
  {
    var evs :| Reaches(task, evs, q);
    CallsGoOn(task, evs);
  }

  // ---- consistent tasks stay aligned ------------------------------------------------------------------

  // The recorder of a row had got what the body has got now, or a failure that a
  // later invocation made good.
  lemma RecordersBelow(maker: seq<Answer>, answers: seq<Answer>, rows: seq<Entry>, now: int)
    requires |maker| == |answers| && Below(maker, rows, now) && Current(answers, rows, now)
    ensures Upgraded(maker, answers) && (Clean(answers) ==> Clean(maker))
  {
    forall i | 0 <= i < |maker| ensures answers[i] == maker[i] || (maker[i].Erred? && answers[i].Got?) {
      assert Backed(maker[i], rows[i], now) || (rows[i].kind.Once? && maker[i].Erred?);
      assert Backed(answers[i], rows[i], now) || (rows[i].kind.Once? && answers[i].Erred?);
    }
  }

  lemma AlikeMatches(e: Entry, a: Action, b: Action)
    ensures Matches(e, a) && Matches(e, b) ==> Alike(a, b)
    ensures Matches(e, a) && Alike(a, b) ==> Matches(e, b)
  {
  }

  lemma ConsistentFits(w: World, task: Task, out: Option<Str>)
    requires Inv(w, task) && Consistent(task) && w.active && Answerable(task, w.answers) && !task(w.answers).Return?
    ensures Perform(w.s, task(w.answers), out, w.now).1 != Returned(Misaligned)
  {
    var c := w.s.cursor;
    MisalignedOnlyIf(w.s, task(w.answers), out, w.now);
    if c < |w.s.rows| {
      assert Clean(w.answers) && Matches(w.s.rows[c], task(w.makers[c])) && Below(w.makers[c], w.s.rows, w.now);
      RecordersBelow(w.makers[c], w.answers, w.s.rows, w.now);
      AlikeMatches(w.s.rows[c], task(w.makers[c]), task(w.answers));
    }
  }

  lemma {:induction false} Always(task: Task, evs: seq<Event>)
    requires Consistent(task)
    ensures Inv(Exec(task, evs), task)
  {
    if evs != [] {
      var front, ev := evs[..|evs| - 1], evs[|evs| - 1];
      var w := Exec(task, front);
      Always(task, front);
      if Allowed(w, task, ev) {
        if w.active {
          ReachedNow(task, front);
          if ev.Called? {
            ConsistentFits(w, task, ev.out);
          }
        }
        StepKeeps(w, task, ev);
      }
    }
  }

  // Replaying a consistent task never finds its journal out of step.
  lemma ConsistentNeverMisaligns(task: Task)
    requires Consistent(task)
    ensures NeverMisaligns(task)
  {
    forall evs, out | Allowed(Exec(task, evs), task, Called(out))
      ensures Perform(Exec(task, evs).s, task(Exec(task, evs).answers), out, Exec(task, evs).now).1 != Returned(Misaligned)
    {
      Always(task, evs);
      ReachedNow(task, evs);
      ConsistentFits(Exec(task, evs), task, out);
    }
  }

  // ---- tasks that stay aligned are consistent ---------------------------------------------------------

  lemma {:induction false} AlignedAlways(task: Task, evs: seq<Event>)
    requires NeverMisaligns(task)
    ensures Inv(Exec(task, evs), task)
  {
    if evs != [] {
      var front, ev := evs[..|evs| - 1], evs[|evs| - 1];
      AlignedAlways(task, front);
      if Allowed(Exec(task, front), task, ev) {
        if Exec(task, front).active {
          ReachedNow(task, front);
        }
        StepKeeps(Exec(task, front), task, ev);
      }
    }
  }

  lemma ExecPush(task: Task, evs: seq<Event>, ev: Event)
    ensures var w := Exec(task, evs); Exec(task, evs + [ev]) == if Allowed(w, task, ev) then Durable.Step(w, task, ev) else w
  {
    assert (evs + [ev])[..|evs|] == evs;
  }

  // A cancellation takes no part in the answers before the first refused write: the
  // same answers can be had without it.
  ghost predicate Twin(w: World, w1: World) {
    && w1.active && w1.s.state.Running? && w1.answers == w.answers && w1.now == w.now
    && w1.s.rows == w.s.rows && w1.s.loaded == w.s.loaded && w1.s.cursor == w.s.cursor
  }

  lemma TwinCalls(w: World, w1: World, task: Task, out: Option<Str>)
    requires w.active && w.s.state.Over? && Twin(w, w1) && !task(w.answers).Return?
    requires var w2 := AfterCall(w, task(w.answers), out); w2.active && Clean(w2.answers)
    ensures Twin(AfterCall(w, task(w.answers), out), AfterCall(w1, task(w.answers), out))
  {
    var (s2, reply) := Perform(w.s, task(w.answers), out, w.now);
    CleanGrows(w.answers, reply.answer);
  }

  lemma {:induction false} Uncancelled(task: Task, evs: seq<Event>) returns (evs1: seq<Event>)
    requires NeverMisaligns(task) && Exec(task, evs).active && Clean(Exec(task, evs).answers)
    ensures Twin(Exec(task, evs), Exec(task, evs1))
  {
    var w := Exec(task, evs);
    AlignedAlways(task, evs);
    if w.s.state.Running? {
      evs1 := evs;
    } else {
      var front, ev := evs[..|evs| - 1], evs[|evs| - 1];
      var w0 := Exec(task, front);
      AlignedAlways(task, front);
      if !Allowed(w0, task, ev) {
        evs1 := Uncancelled(task, front);
      } else {
        CleanBefore(w0, task, ev);
        evs1 := Uncancelled(task, front);
        if ev.Called? {
          TwinCalls(w0, Exec(task, evs1), task, ev.out);
        }
        if ev.Called? || ev.Ticked? {
          ExecPush(task, evs1, ev);
          evs1 := evs1 + [ev];
        }
      }
    }
  }

  lemma CleanBefore(w: World, task: Task, ev: Event)
    requires Allowed(w, task, ev) && Inv(w, task)
    requires var w1 := Durable.Step(w, task, ev); w1.active && w1.s.state.Over? && Clean(w1.answers)
    ensures w.active && Clean(w.answers) && !ev.Claimed? && (ev.Called? || ev.Emitted? ==> w.s.state.Over?)
  {
    if ev.Called? {
      var reply := Perform(w.s, task(w.answers), ev.out, w.now).1;
      CleanGrows(w.answers, reply.answer);
    }
  }

  // The row a body is about to call for, recorded and left for another invocation.
  ghost predicate Left(w: World, task: Task, p: seq<Answer>) {
    && !w.active && w.s.state.Ready? && |p| < |w.s.rows| && Matches(w.s.rows[|p|], task(p))
    && Current(p, w.s.rows, w.now)
  }

  lemma CurrentBelow(p: seq<Answer>, s: Session, rows1: seq<Entry>, now: int)
    requires Current(p, s.rows, now) && |p| <= s.cursor
    requires Keeps(s.rows, rows1, now) && forall i | 0 <= i < |s.rows| && i != s.cursor :: rows1[i] == s.rows[i]
    ensures Current(p, rows1, now)
  {
  }

  lemma CurrentLater(p: seq<Answer>, rows: seq<Entry>, now: int, later: int)
    requires Current(p, rows, now) && now <= later
    ensures Current(p, rows, later)
  {
    LaterKeepsBelow(p, rows, now, later);
  }

  // A suspended executor's step is woken: the sleep runs out, or the event comes.
  lemma Wakes(task: Task, evs: seq<Event>, p: seq<Answer>) returns (evs1: seq<Event>)
    requires NeverMisaligns(task)
    requires var w := Exec(task, evs);
      && !w.active && |p| == |w.s.rows| - 1 && Matches(w.s.rows[|p|], task(p)) && Current(p, w.s.rows, w.now)
      && (w.s.state.Asleep? ==> w.s.state.at > 0)
      && (w.s.state.Awaiting? ==> Awaits(w.s.rows[|p|], w.s.state.event))
      && (w.s.state.Asleep? || w.s.state.Awaiting?)
    ensures Left(Exec(task, evs1), task, p)
  {
    var w := Exec(task, evs);
    if w.s.state.Asleep? {
      var later := if w.s.state.at > w.now then w.s.state.at else w.now;
      ExecPush(task, evs, Ticked(later));
      CurrentLater(p, w.s.rows, w.now, later);
      ExecPush(task, evs + [Ticked(later)], Claimed);
      ExecPush(task, evs + [Ticked(later)] + [Claimed], Requeued);
      evs1 := evs + [Ticked(later)] + [Claimed] + [Requeued];
    } else {
      var ev := Emitted(w.s.state.event, Empty);
      ExecPush(task, evs, ev);
      DeliverySameRows(w.s.rows, ev.event, Empty, w.now);
      SameRowsKeepBelow(p, w.s.rows, DeliverJournal(w.s.rows, ev.event, Empty), w.now);
      evs1 := evs + [ev];
    }
  }

  lemma Leaves(task: Task, evs: seq<Event>) returns (evs1: seq<Event>)
    requires NeverMisaligns(task)
    requires var w := Exec(task, evs); w.active && w.s.state.Running? && !task(w.answers).Return?
    ensures Left(Exec(task, evs1), task, Exec(task, evs).answers)
  {
    var w := Exec(task, evs);
    var a := task(w.answers);
    AlignedAlways(task, evs);
    assert Allowed(w, task, Called(None));
    MisalignedOnlyIf(w.s, a, None, w.now);
    if w.s.cursor < |w.s.rows| {
      ExecPush(task, evs, Requeued);
      evs1 := evs + [Requeued];
    } else {
      var (s1, reply) := Perform(w.s, a, None, w.now);
      CallAnswers(w, task, None);
      ExtendsKeeps(w.s, a, w.now, s1.rows);
      CurrentBelow(w.answers, w.s, s1.rows, w.now);
      ExecPush(task, evs, Called(None));
      Records(w.s, a, w.now);
      if reply.Returned? {
        ExecPush(task, evs + [Called(None)], Requeued);
        evs1 := evs + [Called(None)] + [Requeued];
      } else {
        evs1 := Wakes(task, evs + [Called(None)], w.answers);
      }
    }
  }

  // At the journal's end every call records its row.
  lemma Records(s: Session, a: Action, now: int)
    requires !a.Return? && s.state.Running? && Tracks(s.loaded, s.rows) && s.cursor == |s.rows| && now >= 0
    ensures var (s1, reply) := Perform(s, a, None, now);
      && |s1.rows| == |s.rows| + 1
      && (reply.Unwound? ==> s1.state.Asleep? || s1.state.Awaiting?)
      && (s1.state.Asleep? ==> s1.state.at > 0)
      && (s1.state.Awaiting? ==> Awaits(s1.rows[|s.rows|], s1.state.event))
      && (reply.Returned? ==> s1.state.Running?)
  {
  }

  // The next invocation can get any answers that upgrade the ones before it.
  ghost predicate Replaying(w: World, p: seq<Answer>, q: seq<Answer>, i: nat, e: Entry) {
    && w.active && w.s.state.Running? && i <= |q| && w.answers == q[..i] && w.s.cursor == i && w.s.loaded == w.s.rows
    && |p| == |q| < |w.s.rows| && SameAwait(w.s.rows[|p|], e)
    && forall j | i <= j < |p| :: Backed(p[j], w.s.rows[j], w.now) || (w.s.rows[j].kind.Once? && !w.s.rows[j].done && p[j].Erred?)
  }

  lemma ReplaysOne(task: Task, evs: seq<Event>, p: seq<Answer>, q: seq<Answer>, i: nat, e: Entry) returns (ev: Event)
    requires NeverMisaligns(task) && Upgraded(p, q) && i < |q| && !task(q[..i]).Return?
    requires Replaying(Exec(task, evs), p, q, i, e)
    ensures Replaying(Exec(task, evs + [ev]), p, q, i + 1, e)
  {
    var w := Exec(task, evs);
    ev := Called(if q[i].Got? then Some(q[i].value) else None);
    assert Allowed(w, task, ev);
    MisalignedOnlyIf(w.s, task(q[..i]), ev.out, w.now);
    ExecPush(task, evs, ev);
    AnswersFromRow(w.s, task(q[..i]), ev.out, w.now, p[i], q[i]);
    assert q[..i] + [q[i]] == q[..i + 1];
  }

  lemma AnswersFromRow(s: Session, a: Action, out: Option<Str>, now: int, x: Answer, y: Answer)
    requires !a.Return? && s.state.Running? && s.loaded == s.rows && s.cursor < |s.rows| && Matches(s.rows[s.cursor], a)
    requires y == x || (x.Erred? && y.Got?)
    requires out == if y.Got? then Some(y.value) else None
    requires Backed(x, s.rows[s.cursor], now) || (s.rows[s.cursor].kind.Once? && !s.rows[s.cursor].done && x.Erred?)
    ensures var (s1, reply) := Perform(s, a, out, now);
      && reply == Returned(y) && s1.state.Running? && s1.loaded == s1.rows && s1.cursor == s.cursor + 1
      && |s1.rows| == |s.rows|
      && (forall j | 0 <= j < |s.rows| && j != s.cursor :: s1.rows[j] == s.rows[j])
  {
  }

  lemma {:induction false} ReplaysAll(task: Task, evs: seq<Event>, p: seq<Answer>, q: seq<Answer>, i: nat, e: Entry) returns (evs1: seq<Event>)
    requires NeverMisaligns(task) && Upgraded(p, q) && i <= |q| && forall j | 0 <= j < |q| :: !task(q[..j]).Return?
    requires Replaying(Exec(task, evs), p, q, i, e)
    ensures Replaying(Exec(task, evs1), p, q, |q|, e)
    decreases |q| - i
  {
    if i == |q| {
      evs1 := evs;
    } else {
      var ev := ReplaysOne(task, evs, p, q, i, e);
      evs1 := ReplaysAll(task, evs + [ev], p, q, i + 1, e);
    }
  }

  // The first invocation records its next call, the second replays up to it.
  lemma CallsAgree(task: Task, p: seq<Answer>, q: seq<Answer>)
    requires NeverMisaligns(task) && Answerable(task, p) && Answerable(task, q) && Clean(p) && Clean(q) && Upgraded(p, q)
    requires !task(p).Return? && !task(q).Return?
    ensures Alike(task(p), task(q))
  {
    var evs :| Reaches(task, evs, p);
    var evs0 := Uncancelled(task, evs);
    var evs1 := Leaves(task, evs0);
    var w1 := Exec(task, evs1);
    ExecPush(task, evs1, Claimed);
    NoReturnBefore(task, q);
    assert q[..0] == [];
    var evs2 := ReplaysAll(task, evs1 + [Claimed], p, q, 0, w1.s.rows[|p|]);
    var w2 := Exec(task, evs2);
    assert q[..|q|] == q;
    assert Allowed(w2, task, Called(None));
    MisalignedOnlyIf(w2.s, task(q), None, w2.now);
    AlikeMatches(w2.s.rows[|p|], task(p), task(q));
  }

  // Exactly the consistent tasks are never misaligned, whatever suspensions,
  // failures, wakes, cancellations and restarts befall them.
  lemma AlignedExactlyWhenConsistent(task: Task)
    ensures Consistent(task) <==> NeverMisaligns(task)
  {
    if Consistent(task) {
      ConsistentNeverMisaligns(task);
    }
    if NeverMisaligns(task) {
      forall p, q | Answerable(task, p) && Answerable(task, q) && Clean(p) && Clean(q) && Upgraded(p, q)
        && !task(p).Return? && !task(q).Return?
        ensures Alike(task(p), task(q))
      {
        CallsAgree(task, p, q);
      }
    }
  }

  // ---- replay -----------------------------------------------------------------------------------

  lemma StepKeepsSettled(w: World, task: Task, ev: Event)
    requires Inv(w, task) && Allowed(w, task, ev)
    requires ev.Called? ==> Perform(w.s, task(w.answers), ev.out, w.now).1 != Returned(Misaligned)
    ensures var w1 := Durable.Step(w, task, ev);
      && Keeps(w.s.rows, w1.s.rows, w.now) && w.now <= w1.now
      && |w.makers| <= |w1.makers| && w1.makers[..|w.makers|] == w.makers && w.firsts <= w1.firsts
  {
    if ev.Called? {
      CallAnswers(w, task, ev.out);
      ExtendsKeeps(w.s, task(w.answers), w.now, Perform(w.s, task(w.answers), ev.out, w.now).0.rows);
    } else if ev.Emitted? {
      DeliverySameRows(w.s.rows, ev.event, ev.payload, w.now);
    }
  }

  // A row the body got past never changes again.
  lemma {:induction false} SettledForever(task: Task, evs: seq<Event>, m: nat)
    requires Consistent(task) && m <= |evs|
    ensures var w, w1 := Exec(task, evs[..m]), Exec(task, evs);
      Keeps(w.s.rows, w1.s.rows, w.now) && w.now <= w1.now && w.firsts <= w1.firsts
    decreases |evs|
  {
    if m == |evs| {
      assert evs[..m] == evs;
    } else {
      var front, ev := evs[..|evs| - 1], evs[|evs| - 1];
      assert front[..m] == evs[..m];
      SettledForever(task, front, m);
      Always(task, front);
      if Allowed(Exec(task, front), task, ev) {
        if ev.Called? {
          ReachedNow(task, front);
          ConsistentFits(Exec(task, front), task, ev.out);
        }
        StepKeepsSettled(Exec(task, front), task, ev);
      }
    }
  }

  // Whatever suspensions, retries, wakes and restarts lie between them, any two
  // invocations that get past a journal slot get the same answer there.
  lemma ReplaySoundness(task: Task, evs: seq<Event>, m: nat, k: nat)
    requires Consistent(task) && m <= |evs|
    requires var w := Exec(task, evs[..m]); w.active && k < |w.answers| && !IsError(w.answers[k])
    requires var w1 := Exec(task, evs); w1.active && k < |w1.answers| && !IsError(w1.answers[k])
    ensures Exec(task, evs[..m]).answers[k] == Exec(task, evs).answers[k]
  {
    Always(task, evs[..m]);
    Always(task, evs);
    SettledForever(task, evs, m);
  }

  // A RunOnce slot whose result was memoized never calls its function again.
  lemma MemoizedIsFinal(task: Task, evs: seq<Event>, i: nat, j: nat)
    requires Consistent(task) && i < j < |Exec(task, evs).invocations|
    requires Exec(task, evs).invocations[i].slot == Exec(task, evs).invocations[j].slot
    ensures !Exec(task, evs).invocations[i].memoized
  {
    Always(task, evs);
  }

  // SleepDurable returns only when the duration of its first call has passed since
  // that call, which recorded its row.
  lemma SleepsLongEnough(task: Task, evs: seq<Event>, k: nat)
    requires Consistent(task)
    requires var w := Exec(task, evs);
      w.active && k < |w.answers| && !IsError(w.answers[k]) && task(w.answers[..k]).Sleep?
    ensures var w := Exec(task, evs);
      && k < |w.firsts| && k < |w.makers| && w.answers[k] == Slept
      && task(w.makers[k]).Sleep? && w.now >= w.firsts[k] + task(w.makers[k]).d
  {
    Always(task, evs);
  }

  // Nor do the durations depend on what failed.
  ghost predicate SteadySleeps(task: Task) {
    forall p, q {:trigger Upgraded(p, q)} |
      Answerable(task, p) && Answerable(task, q) && Clean(p) && Clean(q) && Upgraded(p, q)
      && task(p).Sleep? && task(q).Sleep? :: task(p).d == task(q).d
  }

  // Then it is also the duration the replaying call asks for.
  lemma SleepsAsAsked(task: Task, evs: seq<Event>, k: nat)
    requires Consistent(task) && SteadySleeps(task)
    requires var w := Exec(task, evs);
      w.active && Clean(w.answers) && k < |w.answers| && task(w.answers[..k]).Sleep?
    ensures var w := Exec(task, evs); k < |w.firsts| && w.now >= w.firsts[k] + task(w.answers[..k]).d
  {
    var w := Exec(task, evs);
    Always(task, evs);
    CallsGoOn(task, evs);
    assert Matches(w.s.rows[k], task(w.answers[..k])) && Backed(w.answers[k], w.s.rows[k], w.now);
    assert |w.makers[k]| == k && Below(w.makers[k], w.s.rows, w.now);
    RecordersBelow(w.makers[k], w.answers[..k], w.s.rows, w.now);
  }

  // A WaitFor times out only once the timeout of its first call has passed since then.
  lemma WaitsLongEnough(task: Task, evs: seq<Event>, k: nat)
    requires Consistent(task)
    requires var w := Exec(task, evs); w.active && k < |w.answers| && w.answers[k] == TimedOut
    ensures var w := Exec(task, evs);
      && k < |w.firsts| && k < |w.makers| && task(w.makers[k]).WaitFor?
      && task(w.makers[k]).timeout > 0 && w.now >= w.firsts[k] + task(w.makers[k]).timeout
  {
    Always(task, evs);
    var w := Exec(task, evs);
    assert Backed(w.answers[k], w.s.rows[k], w.now);
  }

  // A suspended step can be claimed again exactly from the time on that its sleep, or
  // the timeout of its wait, was to end, counted from the call that began it.
  lemma WakesWhenDue(task: Task, evs: seq<Event>)
    requires Consistent(task)
    requires Exec(task, evs).s.state.Asleep? || Exec(task, evs).s.state.Awaiting?
    ensures var w := Exec(task, evs);
      var k := w.s.cursor - 1;
      && 0 <= k < |w.firsts| && k < |w.makers|
      && match task(w.makers[k])
         case Sleep(d) => Durable.Claimable(w) <==> w.now >= w.firsts[k] + d
         case WaitFor(event, timeout) =>
           w.s.state.Awaiting? && w.s.state.event == event && (Durable.Claimable(w) <==> timeout > 0 && w.now >= w.firsts[k] + timeout)
         case _ => false
  {
    Always(task, evs);
  }

  // ---- where answers come from ------------------------------------------------------------------

  // An event that was emitted while the i-th row was recorded and open.
  ghost predicate EmittedTo(task: Task, evs: seq<Event>, i: nat, m: nat, event: Str, payload: Str) {
    && m < |evs| && evs[m] == Emitted(event, payload)
    && i < |Exec(task, evs[..m]).s.rows| && Awaits(Exec(task, evs[..m]).s.rows[i], event)
  }

  // A function that was called for the i-th row and returned the value.
  ghost predicate ResultAt(task: Task, evs: seq<Event>, i: nat, m: nat, key: Str, value: Str) {
    && m < |evs| && evs[m] == Called(Some(value))
    && var w := Exec(task, evs[..m]);
       w.active && w.s.cursor == i && task(w.answers) == RunOnce(key) && Invokes(w.s, key)
  }

  // What decided a row, if it is decided.
  ghost predicate Sourced(task: Task, evs: seq<Event>, i: nat, e: Entry) {
    && (e.kind.WaitFor? && e.done && !e.timedOut ==> exists m: nat :: EmittedTo(task, evs, i, m, e.event, e.payload))
    && (e.kind.Once? && e.done ==> exists m: nat :: ResultAt(task, evs, i, m, e.key, e.result))
  }

  lemma SourcedLater(task: Task, front: seq<Event>, ev: Event, i: nat, e: Entry)
    requires Sourced(task, front, i, e)
    ensures Sourced(task, front + [ev], i, e)
  {
    var evs := front + [ev];
    if e.kind.WaitFor? && e.done && !e.timedOut {
      var m: nat :| EmittedTo(task, front, i, m, e.event, e.payload);
      assert evs[..m] == front[..m];
      assert EmittedTo(task, evs, i, m, e.event, e.payload);
    }
    if e.kind.Once? && e.done {
      var m: nat :| ResultAt(task, front, i, m, e.key, e.result);
      assert evs[..m] == front[..m];
      assert ResultAt(task, evs, i, m, e.key, e.result);
    }
  }

  // A call decides no wait but by its timeout, and no RunOnce but with the value its
  // function returned.
  lemma CallDecides(s: Session, a: Action, out: Option<Str>, now: int, i: nat)
    requires !a.Return? && Tracks(s.loaded, s.rows) && (s.cursor < |s.rows| ==> Matches(s.rows[s.cursor], a))
    requires i < |Perform(s, a, out, now).0.rows|
    requires i < |s.rows| ==> Perform(s, a, out, now).0.rows[i] != s.rows[i]
    ensures var e := Perform(s, a, out, now).0.rows[i];
      && (e.kind.WaitFor? && e.done ==> e.timedOut)
      && (e.kind.Once? && e.done ==> i == s.cursor && a == RunOnce(e.key) && Invokes(s, e.key) && out == Some(e.result))
  {
  }

  lemma CalledSourced(task: Task, front: seq<Event>, out: Option<Str>, i: nat)
    requires Consistent(task) && Allowed(Exec(task, front), task, Called(out)) && i < |Exec(task, front + [Called(out)]).s.rows|
    requires i < |Exec(task, front).s.rows| ==> Sourced(task, front, i, Exec(task, front).s.rows[i])
    ensures Sourced(task, front + [Called(out)], i, Exec(task, front + [Called(out)]).s.rows[i])
  {
    var w, evs := Exec(task, front), front + [Called(out)];
    Always(task, front);
    ReachedNow(task, front);
    ConsistentFits(w, task, out);
    MisalignedOnlyIf(w.s, task(w.answers), out, w.now);
    ExecPush(task, front, Called(out));
    var e := Exec(task, evs).s.rows[i];
    if i < |w.s.rows| && w.s.rows[i] == e {
      SourcedLater(task, front, Called(out), i, e);
    } else {
      CallDecides(w.s, task(w.answers), out, w.now, i);
      assert evs[..|front|] == front;
      if e.kind.Once? && e.done {
        assert ResultAt(task, evs, i, |front|, e.key, e.result);
      }
    }
  }

  lemma EmittedSourced(task: Task, front: seq<Event>, event: Str, payload: Str, i: nat)
    requires Consistent(task) && i < |Exec(task, front + [Emitted(event, payload)]).s.rows|
    requires i < |Exec(task, front).s.rows| ==> Sourced(task, front, i, Exec(task, front).s.rows[i])
    ensures Sourced(task, front + [Emitted(event, payload)], i, Exec(task, front + [Emitted(event, payload)]).s.rows[i])
  {
    var w, evs := Exec(task, front), front + [Emitted(event, payload)];
    ExecPush(task, front, Emitted(event, payload));
    var e := Exec(task, evs).s.rows[i];
    if w.s.rows[i] == e {
      SourcedLater(task, front, Emitted(event, payload), i, e);
    } else {
      assert evs[..|front|] == front;
      assert EmittedTo(task, evs, i, |front|, event, payload);
    }
  }

  // Every decided row was decided by something that happened to it.
  lemma {:induction false} AlwaysSourced(task: Task, evs: seq<Event>, i: nat)
    requires Consistent(task) && i < |Exec(task, evs).s.rows|
    ensures Sourced(task, evs, i, Exec(task, evs).s.rows[i])
  {
    if evs != [] {
      var front, ev := evs[..|evs| - 1], evs[|evs| - 1];
      assert evs == front + [ev];
      var w := Exec(task, front);
      if i < |w.s.rows| {
        AlwaysSourced(task, front, i);
      }
      if ev.Called? && Allowed(w, task, ev) {
        CalledSourced(task, front, ev.out, i);
      } else if ev.Emitted? {
        EmittedSourced(task, front, ev.event, ev.payload, i);
      } else {
        SourcedLater(task, front, ev, i, w.s.rows[i]);
      }
    }
  }

  // What a WaitFor returned was emitted, as that event, after the call first was made.
  lemma WaitsForTheEvent(task: Task, evs: seq<Event>, k: nat)
    requires Consistent(task)
    requires var w := Exec(task, evs); w.active && k < |w.answers| && w.answers[k].Delivered?
    ensures var w := Exec(task, evs);
      && task(w.answers[..k]).WaitFor?
      && exists m: nat :: EmittedTo(task, evs, k, m, task(w.answers[..k]).event, w.answers[k].payload)
  {
    var w := Exec(task, evs);
    Always(task, evs);
    AlwaysSourced(task, evs, k);
    assert Backed(w.answers[k], w.s.rows[k], w.now) && Matches(w.s.rows[k], task(w.answers[..k]));
  }

  // What a RunOnce returned is what its function returned when it was called for it.
  lemma ReturnsTheResult(task: Task, evs: seq<Event>, k: nat)
    requires Consistent(task)
    requires var w := Exec(task, evs); w.active && k < |w.answers| && w.answers[k].Got?
    ensures var w := Exec(task, evs);
      && task(w.answers[..k]).RunOnce?
      && exists m: nat :: ResultAt(task, evs, k, m, task(w.answers[..k]).key, w.answers[k].value)
  {
    var w := Exec(task, evs);
    Always(task, evs);
    AlwaysSourced(task, evs, k);
    assert Backed(w.answers[k], w.s.rows[k], w.now) && Matches(w.s.rows[k], task(w.answers[..k]));
  }

  // The result a WaitFor returned is the one its row records, whether an event or
  // the timeout decided it.
  lemma WaitAnswersAgree(task: Task, evs: seq<Event>, k: nat)
    requires Consistent(task)
    requires var w := Exec(task, evs);
      w.active && k < |w.answers| && !IsError(w.answers[k]) && task(w.answers[..k]).WaitFor?
    ensures var w := Exec(task, evs);
      && k < |w.s.rows| && w.s.rows[k].kind.WaitFor? && w.s.rows[k].done
      && w.answers[k] == (if w.s.rows[k].timedOut then TimedOut else Delivered(w.s.rows[k].payload))
  {
    Always(task, evs);
    var w := Exec(task, evs);
    assert Backed(w.answers[k], w.s.rows[k], w.now);
  }

  // ---- which tasks are consistent ---------------------------------------------------------------

  // A task that gives up when a call fails (a timed-out wait is not a failure).
  ghost predicate GivesUp(task: Task) {
    forall answers | answers != [] && IsError(answers[|answers| - 1]) :: task(answers).Return?
  }

  lemma GivingUpIsConsistent(task: Task)
    requires GivesUp(task)
    ensures Consistent(task)
  {
    forall p: seq<Answer>, q | Answerable(task, p) && Answerable(task, q) && Clean(p) && Clean(q) && Upgraded(p, q)
      ensures task(p).Return? || task(q).Return? || Alike(task(p), task(q))
    {
      if i: nat :| i < |p| && p[i].Erred? {
        NoReturnBefore(task, p);
        var q1 := p[..i + 1];
        assert q1[|q1| - 1] == p[i] && task(q1).Return?;
        assert i + 1 == |p| ==> q1 == p;
      } else {
        assert p == q;
      }
    }
  }

  // A task whose calls do not depend on which of its RunOnce calls failed.
  ghost predicate Oblivious(task: Task) {
    forall p, q | Upgraded(p, q) :: task(p).Return? || task(q).Return? || Alike(task(p), task(q))
  }

  lemma ObliviousIsConsistent(task: Task)
    requires Oblivious(task)
    ensures Consistent(task)
  {
  }

  // A charge whose failure the body ignores, a sleep, and a wait for the settlement.
  function Saga(charge: Str, day: int, settled: Str, timeout: int): Task {
    (answers: seq<Answer>) =>
      if |answers| == 0 then RunOnce(charge)
      else if |answers| == 1 then Action.Sleep(day)
      else if |answers| == 2 && answers[1] == Slept then Action.WaitFor(settled, timeout)
      else Return
  }

  lemma SagaIsConsistent(charge: Str, day: int, settled: Str, timeout: int)
    ensures Consistent(Saga(charge, day, settled, timeout)) && !GivesUp(Saga(charge, day, settled, timeout))
  {
    var task := Saga(charge, day, settled, timeout);
    ObliviousIsConsistent(task);
    var failed := [Erred];
    assert IsError(failed[|failed| - 1]) && !task(failed).Return?;
  }

  // A task that sleeps after a failed RunOnce, and calls another one after a
  // successful one.
  function Stubborn(key: Str): Task {
    (answers: seq<Answer>) =>
      if answers == [] then RunOnce(key)
      else if answers == [Erred] then Action.Sleep(5)
      else if |answers| == 1 then RunOnce(key)
      else Return
  }

  const FIRST: seq<Event> := [Claimed] + [Called(None)] + [Called(None)] + [Ticked(5)]

  lemma StubbornSleeps(key: Str)
    ensures var w := Exec(Stubborn(key), FIRST);
      !w.active && w.now == 5 && w.s.state == Asleep(5) && w.s.rows == [OnceEntry(key), SleepEntry(5, false)]
  {
    var task := Stubborn(key);
    var e1 := [Claimed];
    var e2 := e1 + [Called(None)];
    assert [] + e1 == e1;
    ExecPush(task, [], Claimed);
    ExecPush(task, e1, Called(None));
    ExecPush(task, e2, Called(None));
    ExecPush(task, e2 + [Called(None)], Ticked(5));
    assert Exec(task, e2).answers == [Erred] && Exec(task, e2).s.rows == [OnceEntry(key)];
  }

  // The first invocation fails its RunOnce and sleeps; the second one succeeds, so
  // its next call meets the sleep of the first.
  lemma StubbornMisaligns(key: Str, value: Str)
    ensures var task := Stubborn(key);
      var w := Exec(task, FIRST + [Claimed] + [Called(Some(value))]);
      && w.active && w.answers == [Got(value)]
      && Perform(w.s, task(w.answers), None, w.now).1 == Returned(Misaligned)
    ensures !Consistent(Stubborn(key))
  {
    var task := Stubborn(key);
    StubbornSleeps(key);
    ExecPush(task, FIRST, Claimed);
    ExecPush(task, FIRST + [Claimed], Called(Some(value)));
    var w := Exec(task, FIRST + [Claimed] + [Called(Some(value))]);
    assert Allowed(w, task, Called(None));
    AlignedExactlyWhenConsistent(task);
  }
}
