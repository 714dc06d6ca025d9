// Executors at work: the transactions their durable calls commit, among everything
// else that happens to the store. Histories they drive are disciplined, so what holds
// of disciplined histories holds of these.

module Driving {
  import opened Enqueue
  import opened Names
  import opened Schema
  import opened Transitions
  import opened Machine
  import opened Frame
  import opened Progress
  import opened Bystanders
  import opened Waits
  import Durable
  import StepStates

  // ---- what a call commits ----------------------------------------------------------------

  function RecordOps(s: Durable.Session, id: StepId, e: Entry, wait: Wait, at: int, now: int): seq<Op> {
    if s.state.Running? && s.cursor == |s.rows| then [AwaitRecorded(id, s.cursor, e, wait, at, now)] else []
  }

  function ResumeOps(s: Durable.Session, id: StepId, wait: Wait, at: int, now: int): seq<Op> {
    if s.state.Running? then [AwaitResumed(id, wait, at, now)] else []
  }

  function AppendOps(s: Durable.Session, id: StepId, e: Entry, now: int): seq<Op> {
    if Durable.CanAppend(s, s.cursor) then [EntryAppended(id, s.cursor, e, now)] else []
  }

  function SleepOps(s: Durable.Session, id: StepId, d: int, now: int): seq<Op> {
    if s.cursor < |s.loaded| then
      var e := s.loaded[s.cursor];
      if e.kind.Sleep? && e.wakeAt > now then ResumeOps(s, id, SleepWait, e.wakeAt, now) else []
    else if d <= 0 then AppendOps(s, id, Durable.SleepEntry(now + d, true), now)
    else RecordOps(s, id, Durable.SleepEntry(now + d, false), SleepWait, now + d, now)
  }

  function MemoOps(s: Durable.Session, id: StepId, out: Option<Str>, now: int): seq<Op> {
    if out.Some? then [OnceCompleted(id, s.cursor, out.value, now)] else []
  }

  function OnceOps(s: Durable.Session, id: StepId, key: Str, out: Option<Str>, now: int): seq<Op> {
    if !Durable.Invokes(s, key) then []
    else if s.cursor < |s.loaded| then MemoOps(s, id, out, now)
    else AppendOps(s, id, Durable.OnceEntry(key), now) + MemoOps(s, id, out, now)
  }

  function WaitOps(s: Durable.Session, id: StepId, event: Str, timeout: int, now: int): seq<Op> {
    if s.cursor < |s.loaded| then
      var e := s.loaded[s.cursor];
      if !e.kind.WaitFor? || e.event != event || e.done then []
      else if Durable.PastDeadline(e, now) then
        if s.cursor < |s.rows| && !s.rows[s.cursor].done then [WaitTimedOut(id, s.cursor, now)] else []
      else ResumeOps(s, id, EventWait(event), e.deadline, now)
    else
      var deadline := if timeout > 0 then now + timeout else 0;
      RecordOps(s, id, Durable.WaitEntry(event, deadline), EventWait(event), deadline, now)
  }

  function CallOps(s: Durable.Session, id: StepId, a: Durable.Action, out: Option<Str>, now: int): seq<Op>
    requires !a.Return?
  {
    match a
    case Sleep(d) => SleepOps(s, id, d, now)
    case RunOnce(key) => OnceOps(s, id, key, out, now)
    case WaitFor(event, timeout) => WaitOps(s, id, event, timeout, now)
  }

  // ---- histories and the executors in them ---------------------------------------------------

  datatype Move =
    | Other(op: Op)
    | Call(id: StepId, a: Durable.Action, out: Option<Str>, now: int)

  // The history so far, and how far the executor of each claimed step has got.
  datatype Drive = Drive(ops: seq<Op>, cursors: map<StepId, nat>)

  const IDLE := Drive([], map[])

  function SessionOf(db: Db, l: seq<Entry>, id: StepId, cursor: nat): Durable.Session {
    Durable.Session(StepStates.StateOf(db, id), Journal(db, id), l, cursor)
  }

  ghost function ViewOf(d: Drive, id: StepId): Durable.Session
    requires id in d.cursors
  {
    SessionOf(Exec(d.ops), Loaded(d.ops, id), id, d.cursors[id])
  }

  // Everything but the journal's own transactions happens of itself; these come from
  // calls, none of which finds another call's slot.
  ghost predicate Admissible(d: Drive, m: Move) {
    match m
    case Other(op) =>
      !HasStep(op) && Enabled(Exec(d.ops), op) && op.At() > 0 && op.At() >= Clock(d.ops) && RetriedInTime(Exec(d.ops), op)
    case Call(id, a, out, now) =>
      && id in d.cursors && !a.Return? && now > 0 && now >= Clock(d.ops)
      && Durable.Perform(ViewOf(d, id), a, out, now).1 != Durable.Returned(Durable.Misaligned)
  }

  // A claim starts the body from the top; a call that unwinds it ends it.
  ghost function Moved(d: Drive, m: Move): Drive
    requires Admissible(d, m)
  {
    match m
    case Other(op) =>
      Drive(d.ops + [op],
            if op.ClaimQueue? then d.cursors + map id | id in ClaimLog(Exec(d.ops), op.cands, op.c) :: 0 else d.cursors)
    case Call(id, a, out, now) =>
      Drive(d.ops + CallOps(ViewOf(d, id), id, a, out, now),
            if Durable.Perform(ViewOf(d, id), a, out, now).1.Unwound? then d.cursors - {id} else d.cursors[id := d.cursors[id] + 1])
  }

  // The drive after some moves; one that is not admissible does not happen.
  ghost function Drove(moves: seq<Move>): Drive {
    if moves == [] then IDLE
    else
      var d, m := Drove(moves[..|moves| - 1]), moves[|moves| - 1];
      if Admissible(d, m) then Moved(d, m) else d
  }

  // ---- the executor of one step -----------------------------------------------------------------

  // It is past every wait behind it, while its step is its own.
  predicate AtWork(db: Db, id: StepId, cursor: nat) {
    && !IsSuspended(db, id)
    && (IsRunning(db, id) ==> cursor <= |Journal(db, id)| && WaitsDone(Journal(db, id), cursor))
  }

  // The transactions of one executor, by the book one after the other.
  ghost predicate Commits(db: Db, l: seq<Entry>, id: StepId, ops: seq<Op>, now: int)
    decreases |ops|
  {
    ops == [] ||
    (&& HasStep(ops[0]) && ops[0].id == id && ops[0].now == now && ByTheBook(db, l, ops[0])
     && Commits(Apply(db, ops[0]), Reloaded(db, ops[0], id, l), id, ops[1..], now))
  }

  lemma OneByTheBook(db: Db, l: seq<Entry>, id: StepId, op: Op, now: int)
    requires HasStep(op) && op.id == id && op.now == now && ByTheBook(db, l, op)
    ensures Commits(db, l, id, [op], now)
  {
    assert [op][1..] == [];
  }

  // A RunOnce that is new appends its entry and memoizes its result there.
  lemma OncesByTheBook(db: Db, l: seq<Entry>, id: StepId, s: Durable.Session, key: Str, out: Option<Str>, now: int)
    requires s == SessionOf(db, l, id, s.cursor) && AtWork(db, id, s.cursor)
    ensures Commits(db, l, id, OnceOps(s, id, key, out, now), now)
  {
    if Durable.Invokes(s, key) {
      var memo := MemoOps(s, id, out, now);
      if s.cursor < |l| {
        if out.Some? {
          OneByTheBook(db, l, id, memo[0], now);
        }
      } else {
        var op := EntryAppended(id, s.cursor, Durable.OnceEntry(key), now);
        var l1 := Reloaded(db, op, id, l);
        assert OnceOps(s, id, key, out, now) == [op] + memo && ([op] + memo)[1..] == memo;
        if out.Some? {
          assert l1[s.cursor].kind.Once?;
          OneByTheBook(Apply(db, op), l1, id, memo[0], now);
        }
      }
    }
  }

  lemma CallsByTheBook(db: Db, l: seq<Entry>, id: StepId, s: Durable.Session, a: Durable.Action, out: Option<Str>, now: int)
    requires s == SessionOf(db, l, id, s.cursor)
    requires !a.Return? && AtWork(db, id, s.cursor) && (id in db.steps ==> Tracks(l, Journal(db, id)))
    ensures Commits(db, l, id, CallOps(s, id, a, out, now), now)
  {
    match a
    case Sleep(d) => SleepsByTheBook(db, l, id, s, d, now);
    case RunOnce(key) => OncesByTheBook(db, l, id, s, key, out, now);
    case WaitFor(event, timeout) => WaitsByTheBook(db, l, id, s, event, timeout, now);
  }

  lemma SleepsByTheBook(db: Db, l: seq<Entry>, id: StepId, s: Durable.Session, d: int, now: int)
    requires s == SessionOf(db, l, id, s.cursor) && AtWork(db, id, s.cursor) && (id in db.steps ==> Tracks(l, Journal(db, id)))
    ensures Commits(db, l, id, SleepOps(s, id, d, now), now)
  {
    if s.cursor < |l| && l[s.cursor].kind.Sleep? && l[s.cursor].wakeAt > now {
      assert Resumable(l[s.cursor], SleepWait, l[s.cursor].wakeAt, now);
    }
  }

  lemma WaitsByTheBook(db: Db, l: seq<Entry>, id: StepId, s: Durable.Session, event: Str, timeout: int, now: int)
    requires s == SessionOf(db, l, id, s.cursor) && AtWork(db, id, s.cursor) && (id in db.steps ==> Tracks(l, Journal(db, id)))
    ensures Commits(db, l, id, WaitOps(s, id, event, timeout, now), now)
  {
    if s.cursor < |l| && l[s.cursor].kind.WaitFor? && l[s.cursor].event == event && !l[s.cursor].done && !Overdue(l[s.cursor], now) {
      assert Resumable(l[s.cursor], EventWait(event), l[s.cursor].deadline, now);
    }
  }

  // ---- the transactions are the call --------------------------------------------------------------

  // What an operation of the step makes of its session.
  ghost function Seen(db: Db, l: seq<Entry>, op: Op, id: StepId, cursor: nat): Durable.Session {
    SessionOf(Apply(db, op), Reloaded(db, op, id, l), id, cursor)
  }

  lemma RecordCommits(db: Db, l: seq<Entry>, id: StepId, s: Durable.Session, e: Entry, wait: Wait, at: int, now: int)
    requires s == SessionOf(db, l, id, s.cursor) && s.state.Running? && s.cursor == |s.rows| && !wait.NoWait?
    ensures Seen(db, l, AwaitRecorded(id, s.cursor, e, wait, at, now), id, s.cursor + 1)
      == Durable.Record(Durable.Taken(s), s.cursor, e, if wait.EventWait? then Durable.Awaiting(wait.event, at) else Durable.Asleep(at)).0
  {
  }

  lemma ResumeCommits(db: Db, l: seq<Entry>, id: StepId, s: Durable.Session, wait: Wait, at: int, now: int)
    requires s == SessionOf(db, l, id, s.cursor) && s.state.Running? && !wait.NoWait?
    ensures Seen(db, l, AwaitResumed(id, wait, at, now), id, s.cursor + 1)
      == Durable.Resuspend(Durable.Taken(s), if wait.EventWait? then Durable.Awaiting(wait.event, at) else Durable.Asleep(at)).0
  {
  }

  lemma AppendCommits(db: Db, l: seq<Entry>, id: StepId, s: Durable.Session, e: Entry, now: int)
    requires s == SessionOf(db, l, id, s.cursor) && Durable.CanAppend(s, s.cursor)
    ensures Seen(db, l, EntryAppended(id, s.cursor, e, now), id, s.cursor + 1) == Durable.Appended(Durable.Taken(s), e)
  {
  }

  lemma MemoCommits(db: Db, l: seq<Entry>, id: StepId, s: Durable.Session, value: Str, now: int)
    requires Rows(db) && s == SessionOf(db, l, id, s.cursor) && s.cursor < |l| && (id in db.steps ==> |l| == |s.rows|)
    ensures Seen(db, l, OnceCompleted(id, s.cursor, value, now), id, s.cursor + 1)
      == Durable.RunFn(Durable.Taken(s), s.cursor, Some(value)).0
  {
  }

  lemma TimeoutCommits(db: Db, l: seq<Entry>, id: StepId, s: Durable.Session, now: int)
    requires Rows(db) && s == SessionOf(db, l, id, s.cursor) && s.cursor < |s.rows| && !s.rows[s.cursor].done && s.rows[s.cursor].kind.WaitFor?
    ensures Seen(db, l, WaitTimedOut(id, s.cursor, now), id, s.cursor + 1) == Durable.ClaimTimeout(Durable.Taken(s), s.cursor).0
  {
  }

  // The session after some of the step's operations.
  ghost function SeenAll(db: Db, l: seq<Entry>, ops: seq<Op>, id: StepId, cursor: nat): Durable.Session
    decreases |ops|
  {
    if ops == [] then SessionOf(db, l, id, cursor) else SeenAll(Apply(db, ops[0]), Reloaded(db, ops[0], id, l), ops[1..], id, cursor)
  }

  lemma SleepCommits(db: Db, l: seq<Entry>, id: StepId, s: Durable.Session, d: int, now: int)
    requires s == SessionOf(db, l, id, s.cursor) && !IsSuspended(db, id) && (id in db.steps ==> Tracks(l, s.rows))
    requires Durable.SleepCall(s, d, now).1 != Durable.Returned(Durable.Misaligned)
    ensures SeenAll(db, l, SleepOps(s, id, d, now), id, s.cursor + 1) == Durable.SleepCall(s, d, now).0
  {
    if s.cursor < |l| {
      if s.state.Running? && l[s.cursor].wakeAt > now {
        ResumeCommits(db, l, id, s, SleepWait, l[s.cursor].wakeAt, now);
      }
    } else if d <= 0 {
      if Durable.CanAppend(s, s.cursor) {
        AppendCommits(db, l, id, s, Durable.SleepEntry(now + d, true), now);
      }
    } else if s.state.Running? && s.cursor == |s.rows| {
      RecordCommits(db, l, id, s, Durable.SleepEntry(now + d, false), SleepWait, now + d, now);
    }
  }

  lemma OnceCommits(db: Db, l: seq<Entry>, id: StepId, s: Durable.Session, key: Str, out: Option<Str>, now: int)
    requires Rows(db) && s == SessionOf(db, l, id, s.cursor) && (id in db.steps ==> Tracks(l, s.rows))
    requires Durable.OnceCall(s, key, out).1 != Durable.Returned(Durable.Misaligned)
    ensures SeenAll(db, l, OnceOps(s, id, key, out, now), id, s.cursor + 1) == Durable.OnceCall(s, key, out).0
  {
    if Durable.Invokes(s, key) {
      if s.cursor < |l| {
        if out.Some? {
          MemoCommits(db, l, id, s, out.value, now);
        }
      } else {
        FreshOnceCommits(db, l, id, s, key, out, now);
      }
    }
  }

  // A new RunOnce appends its entry and, once its function returns, memoizes the result.
  lemma FreshOnceCommits(db: Db, l: seq<Entry>, id: StepId, s: Durable.Session, key: Str, out: Option<Str>, now: int)
    requires Rows(db) && s == SessionOf(db, l, id, s.cursor) && (id in db.steps ==> Tracks(l, s.rows))
    requires s.cursor == |l| && Durable.CanAppend(s, s.cursor)
    ensures SeenAll(db, l, OnceOps(s, id, key, out, now), id, s.cursor + 1) == Durable.OnceCall(s, key, out).0
  {
    var e, memo := Durable.OnceEntry(key), MemoOps(s, id, out, now);
    var op := EntryAppended(id, s.cursor, e, now);
    var db1, l1 := Apply(db, op), Reloaded(db, op, id, l);
    AppendCommits(db, l, id, s, e, now);
    var mid := SessionOf(db1, l1, id, s.cursor);
    assert Durable.Taken(mid) == Durable.Appended(Durable.Taken(s), e);
    assert OnceOps(s, id, key, out, now) == [op] + memo;
    FirstSeen(db, l, op, memo, id, s.cursor + 1);
    if out.Some? {
      MemoCommits(db1, l1, id, mid, out.value, now);
      FirstSeen(db1, l1, memo[0], [], id, s.cursor + 1);
      assert memo == [memo[0]] + [];
    }
  }

  lemma FirstSeen(db: Db, l: seq<Entry>, op: Op, ops: seq<Op>, id: StepId, cursor: nat)
    ensures SeenAll(db, l, [op] + ops, id, cursor) == SeenAll(Apply(db, op), Reloaded(db, op, id, l), ops, id, cursor)
  {
    assert ([op] + ops)[1..] == ops;
  }

  lemma WaitCommits(db: Db, l: seq<Entry>, id: StepId, s: Durable.Session, event: Str, timeout: int, now: int)
    requires Rows(db) && s == SessionOf(db, l, id, s.cursor) && !IsSuspended(db, id) && (id in db.steps ==> Tracks(l, s.rows))
    requires Durable.WaitCall(s, event, timeout, now).1 != Durable.Returned(Durable.Misaligned)
    ensures SeenAll(db, l, WaitOps(s, id, event, timeout, now), id, s.cursor + 1) == Durable.WaitCall(s, event, timeout, now).0
  {
    if s.cursor < |l| {
      if l[s.cursor].done {
      } else if Durable.PastDeadline(l[s.cursor], now) {
        if s.cursor < |s.rows| && !s.rows[s.cursor].done {
          TimeoutCommits(db, l, id, s, now);
        }
      } else if s.state.Running? {
        ResumeCommits(db, l, id, s, EventWait(event), l[s.cursor].deadline, now);
      }
    } else if s.state.Running? && s.cursor == |s.rows| {
      var deadline := if timeout > 0 then now + timeout else 0;
      RecordCommits(db, l, id, s, Durable.WaitEntry(event, deadline), EventWait(event), deadline, now);
    }
  }

  // The transactions of a call leave the session the call does.
  lemma CallCommits(db: Db, l: seq<Entry>, id: StepId, s: Durable.Session, a: Durable.Action, out: Option<Str>, now: int)
    requires Rows(db) && s == SessionOf(db, l, id, s.cursor) && !IsSuspended(db, id) && (id in db.steps ==> Tracks(l, s.rows))
    requires !a.Return? && Durable.Perform(s, a, out, now).1 != Durable.Returned(Durable.Misaligned)
    ensures SeenAll(db, l, CallOps(s, id, a, out, now), id, s.cursor + 1) == Durable.Perform(s, a, out, now).0
  {
    match a
    case Sleep(d) => SleepCommits(db, l, id, s, d, now);
    case RunOnce(key) => OnceCommits(db, l, id, s, key, out, now);
    case WaitFor(event, timeout) => WaitCommits(db, l, id, s, event, timeout, now);
  }

  // ---- calls keep the discipline ------------------------------------------------------------------

  lemma StateTells(db: Db, id: StepId)
    ensures var state := StepStates.StateOf(db, id);
      (state.Running? <==> IsRunning(db, id)) && (state.Asleep? || state.Awaiting? <==> IsSuspended(db, id))
  {
  }

  lemma ReturnKeepsWork(db: Db, l: seq<Entry>, id: StepId, s: Durable.Session, a: Durable.Action, out: Option<Str>, now: int, db1: Db, l1: seq<Entry>)
    requires s == SessionOf(db, l, id, s.cursor) && AtWork(db, id, s.cursor) && (id in db.steps ==> Tracks(l, s.rows)) && !a.Return?
    requires Durable.Perform(s, a, out, now).1.Returned? && Durable.Perform(s, a, out, now).1 != Durable.Returned(Durable.Misaligned)
    requires Durable.Perform(s, a, out, now).0 == SessionOf(db1, l1, id, s.cursor + 1)
    ensures AtWork(db1, id, s.cursor + 1)
  {
    var s1 := Durable.Perform(s, a, out, now).0;
    StateTells(db, id);
    StateTells(db1, id);
    assert s1.state == s.state;
    if s.state.Running? {
      assert s.cursor + 1 <= |s1.rows|;
      assert s1.rows[s.cursor].kind.WaitFor? ==> s1.rows[s.cursor].done;
      assert WaitsDone(s1.rows, s.cursor + 1);
    }
  }

  lemma OthersStayAtWork(db: Db, op: Op, j: StepId, cursor: nat)
    requires HasStep(op) && op.id != j && AtWork(db, j, cursor)
    ensures AtWork(Apply(db, op), j, cursor)
  {
  }

  ghost predicate OthersStay(db: Db, db1: Db, id: StepId) {
    forall j, c: nat {:trigger AtWork(db1, j, c)} | j != id && AtWork(db, j, c) :: AtWork(db1, j, c)
  }

  // The whole history then, and the session it leaves.
  ghost predicate Joined(db: Db, all: seq<Op>, id: StepId, s: Durable.Session) {
    && Legal(all) && Disciplined(all) && OthersStay(db, Exec(all), id)
    && SessionOf(Exec(all), Loaded(all, id), id, s.cursor) == s
  }

  lemma JoinedEarlier(db: Db, db1: Db, all: seq<Op>, id: StepId, s: Durable.Session)
    requires OthersStay(db, db1, id) && Joined(db1, all, id, s)
    ensures Joined(db, all, id, s)
  {
    forall j, c: nat | j != id && AtWork(db, j, c) ensures AtWork(Exec(all), j, c) {
      assert AtWork(db1, j, c);
    }
  }

  // One transaction of an executor joins a disciplined history.
  lemma OneCommitted(front: seq<Op>, db: Db, l: seq<Entry>, op: Op, next: seq<Op>, id: StepId, now: int)
    requires Legal(front) && Disciplined(front) && db == Exec(front) && l == Loaded(front, id) && now > 0 && now >= Clock(front)
    requires HasStep(op) && op.id == id && op.now == now && ByTheBook(db, l, op) && next == front + [op]
    ensures Legal(next) && Disciplined(next) && Clock(next) == now && OthersStay(db, Apply(db, op), id)
    ensures Exec(next) == Apply(db, op) && Loaded(next, id) == Reloaded(db, op, id, l)
  {
    Extended(front, db, op);
    ExtendedDiscipline(front, db, op);
    ExtendedLoad(front, db, op, id);
    forall j, c: nat | j != id && AtWork(db, j, c) ensures AtWork(Apply(db, op), j, c) {
      OthersStayAtWork(db, op, j, c);
    }
  }

  lemma MovesOver(front: seq<Op>, ops: seq<Op>, all: seq<Op>)
    requires all == front + ops && ops != []
    ensures all == (front + [ops[0]]) + ops[1..]
  {
  }

  lemma {:induction false} AllCommitted(front: seq<Op>, db: Db, l: seq<Entry>, ops: seq<Op>, all: seq<Op>, id: StepId, now: int, cursor: nat)
    requires Legal(front) && Disciplined(front) && db == Exec(front) && l == Loaded(front, id) && now > 0 && now >= Clock(front)
    requires Commits(db, l, id, ops, now) && all == front + ops
    ensures Joined(db, all, id, SeenAll(db, l, ops, id, cursor))
    decreases |ops|
  {
    if ops == [] {
      assert all == front;
    } else {
      var op, rest, next := ops[0], ops[1..], front + [ops[0]];
      var db1, l1 := Apply(db, op), Reloaded(db, op, id, l);
      OneCommitted(front, db, l, op, next, id, now);
      MovesOver(front, ops, all);
      AllCommitted(next, db1, l1, rest, all, id, now, cursor);
      JoinedEarlier(db, db1, all, id, SeenAll(db1, l1, rest, id, cursor));
    }
  }

  // ---- and so does everything else -----------------------------------------------------------------

  // Only an executor's own transaction suspends its step, and only a claim starts it.
  predicate NoneSuspends(db: Db, db1: Db, id: StepId) {
    id in db1.steps ==>
      && (db1.steps[id].status.Suspended? ==> id in db.steps && db.steps[id].status.Suspended?)
      && (db1.steps[id].status.Running? ==> id in db.steps && db.steps[id].status.Running?)
  }

  lemma PartsSuspendNone(db0: Db, m: NewRun, now: int, out: Outcome, a: Db, inserted: bool, id: StepId)
    requires Enqueues(db0, m, now, out, a, inserted) && forall name | name in m.steps :: WellFormedStep(m.steps[name])
    ensures NoneSuspends(db0, out.db, id)
  {
    if inserted {
      PrepareUndisturbed(db0, a, now);
      if id in out.db.steps {
        CancelAllUndisturbed(Inserted(a, m), StrategyVictims(Inserted(a, m), m), now);
        assert Untouched(Inserted(a, m).steps[id], out.db.steps[id]);
      }
    }
  }

  lemma EnqueueSuspendsNone(db: Db, n: NewRun, now: int, id: StepId)
    requires WellFormed(n)
    ensures var out := EnqueueOne(db, n, now); NoneSuspends(db, if out.Enqueued? then out.db else db, id)
  {
    if EnqueueOne(db, n, now).Enqueued? {
      var a, inserted := EnqueueParts(db, n, now);
      StampedWell(n, db.next + 1);
      PartsSuspendNone(Numbered(db, n), Stamped(n, db.next + 1), now, EnqueueOne(db, n, now), a, inserted, id);
    }
  }

  lemma OpSuspendsNone(db: Db, op: Op, id: StepId)
    requires Enabled(db, op) && !HasStep(op) && !op.ClaimQueue?
    ensures NoneSuspends(db, Apply(db, op), id)
  {
    if op.EnqueueRun? {
      EnqueueSuspendsNone(db, op.n, op.now, id);
    } else if BystanderOp(op) {
      OpUndisturbed(db, op);
    } else if op.DeadLetterRetried? {
      assert Apply(db, op) == RetryDeadLetter(db, op.run, op.now);
    } else if op.EventEmitted? {
      assert Apply(db, op) == DeliverEvent(db, op.event, op.payload);
    }
  }

  // The waits behind an executor stay decided whatever else happens.
  lemma StaysAtWork(db: Db, op: Op, id: StepId, l: seq<Entry>, cursor: nat, clock: int)
    requires Rows(db) && Enabled(db, op) && !HasStep(op) && !op.ClaimQueue? && RetriedInTime(db, op)
    requires WaitInv(db, id, l, clock) && clock <= op.At() && AtWork(db, id, cursor)
    ensures AtWork(Apply(db, op), id, cursor)
  {
    OpSuspendsNone(db, op, id);
    if IsRunning(Apply(db, op), id) {
      OpWaits(db, op, id, l, clock);
      OpDecided(db, op, id, l);
      StillDone(Journal(db, id), Journal(Apply(db, op), id), l, cursor);
    }
  }

  lemma StillDone(j: seq<Entry>, j1: seq<Entry>, l: seq<Entry>, cursor: nat)
    requires cursor <= |j| && WaitsDone(j, cursor) && Decided(j, j1) && Tracks(l, j) && Tracks(l, j1)
    ensures cursor <= |j1| && WaitsDone(j1, cursor)
  {
    forall i | 0 <= i < cursor && j1[i].kind.WaitFor? ensures j1[i].done {
      assert SameAwait(l[i], j[i]) && SameAwait(l[i], j1[i]);
    }
  }

  // ---- over whole drives --------------------------------------------------------------------------------

  ghost predicate InOrder(d: Drive) {
    Legal(d.ops) && Disciplined(d.ops) && forall id | id in d.cursors :: AtWork(Exec(d.ops), id, d.cursors[id])
  }

  lemma CallJoins(front: seq<Op>, db: Db, l: seq<Entry>, id: StepId, s: Durable.Session, a: Durable.Action, out: Option<Str>, now: int)
    requires Legal(front) && Disciplined(front) && db == Exec(front) && l == Loaded(front, id) && now > 0 && now >= Clock(front)
    requires s == SessionOf(db, l, id, s.cursor) && AtWork(db, id, s.cursor)
    requires !a.Return? && Durable.Perform(s, a, out, now).1 != Durable.Returned(Durable.Misaligned)
    ensures id in db.steps ==> Tracks(l, s.rows)
    ensures Joined(db, front + CallOps(s, id, a, out, now), id, Durable.Perform(s, a, out, now).0)
  {
    WaitsAlways(front, id);
    RowsAlways(front);
    CallsByTheBook(db, l, id, s, a, out, now);
    CallCommits(db, l, id, s, a, out, now);
    AllCommitted(front, db, l, CallOps(s, id, a, out, now), front + CallOps(s, id, a, out, now), id, now, s.cursor + 1);
  }

  lemma CallWorks(front: seq<Op>, db: Db, l: seq<Entry>, id: StepId, s: Durable.Session, a: Durable.Action, out: Option<Str>, now: int)
    requires Legal(front) && Disciplined(front) && db == Exec(front) && l == Loaded(front, id) && now > 0 && now >= Clock(front)
    requires s == SessionOf(db, l, id, s.cursor) && AtWork(db, id, s.cursor)
    requires !a.Return? && Durable.Perform(s, a, out, now).1 != Durable.Returned(Durable.Misaligned)
    ensures var all := front + CallOps(s, id, a, out, now);
      && Legal(all) && Disciplined(all) && OthersStay(db, Exec(all), id)
      && (Durable.Perform(s, a, out, now).1.Returned? ==> AtWork(Exec(all), id, s.cursor + 1))
  {
    var all := front + CallOps(s, id, a, out, now);
    CallJoins(front, db, l, id, s, a, out, now);
    if Durable.Perform(s, a, out, now).1.Returned? {
      TakesOne(s, a, out, now);
      ReturnKeepsWork(db, l, id, s, a, out, now, Exec(all), Loaded(all, id));
    }
  }

  lemma TakesOne(s: Durable.Session, a: Durable.Action, out: Option<Str>, now: int)
    requires !a.Return?
    ensures Durable.Perform(s, a, out, now).0.cursor == s.cursor + 1
  {
  }

  lemma CallKeepsOrder(d: Drive, id: StepId, a: Durable.Action, out: Option<Str>, now: int)
    requires InOrder(d) && Admissible(d, Call(id, a, out, now))
    ensures InOrder(Moved(d, Call(id, a, out, now)))
  {
    CallWorks(d.ops, Exec(d.ops), Loaded(d.ops, id), id, ViewOf(d, id), a, out, now);
  }

  lemma OtherKeepsOrder(d: Drive, op: Op)
    requires InOrder(d) && Admissible(d, Other(op))
    ensures InOrder(Moved(d, Other(op)))
  {
    var db, d1 := Exec(d.ops), Moved(d, Other(op));
    RowsAlways(d.ops);
    Extended(d.ops, db, op);
    ExtendedDiscipline(d.ops, db, op);
    forall id | id in d1.cursors ensures AtWork(Exec(d1.ops), id, d1.cursors[id]) {
      if op.ClaimQueue? {
        ClaimedOrSame(db, op.cands, op.c, id);
      } else {
        WaitsAlways(d.ops, id);
        StaysAtWork(db, op, id, Loaded(d.ops, id), d.cursors[id], Clock(d.ops));
      }
    }
  }

  // Whatever tasks the executors run, as long as no call finds another call's slot: the
  // history they drive is disciplined, and every executor is past all waits behind it.
  lemma {:induction false} DrivenIsDisciplined(moves: seq<Move>)
    ensures Legal(Drove(moves).ops) && Disciplined(Drove(moves).ops)
    ensures forall id | id in Drove(moves).cursors :: AtWork(Exec(Drove(moves).ops), id, Drove(moves).cursors[id])
  {
    if moves != [] {
      var d, m := Drove(moves[..|moves| - 1]), moves[|moves| - 1];
      DrivenIsDisciplined(moves[..|moves| - 1]);
      if Admissible(d, m) {
        match m
        case Other(op) => OtherKeepsOrder(d, op);
        case Call(id, a, out, now) => CallKeepsOrder(d, id, a, out, now);
      }
    }
  }
}
