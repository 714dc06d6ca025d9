// The executor's side of a durable step: its cursor and loaded journal as fields,
// and the calls as methods that write through to the store. Each is proved equal
// to the call it is named after in Durable.dfy.

module StepStates {
  import opened Names
  import opened Schema
  import opened Stores
  import Durable

  function StateOf(db: Db, id: StepId): Durable.State {
    if id !in db.steps then Durable.Missing
    else
      var s := db.steps[id];
      match s.status
      case Running => Durable.State.Running
      case Queued => Durable.Ready
      case Blocked => Durable.Ready
      case Interrupted => Durable.Ready
      case Suspended =>
        (match s.wait
         case EventWait(event) => Durable.Awaiting(event, s.resumeAt)
         case _ => Durable.Asleep(s.resumeAt))
      case _ => Durable.Over
  }

  // Every other step keeps its row and its journal.
  ghost predicate OnlyStep(db: Db, db1: Db, id: StepId) {
    && db1.runs == db.runs && db1.steps.Keys == db.steps.Keys
    && (forall j | j in db.steps && j != id :: db1.steps[j] == db.steps[j])
    && forall j | j != id :: Journal(db1, j) == Journal(db, j)
  }

  class StepState {
    const store: Store
    const id: StepId
    var journal: seq<Entry>
    var cursor: nat

    // The executor loads the journal once, when it starts the body.
    constructor (store: Store, id: StepId)
      ensures this.store == store && this.id == id
      ensures View() == Durable.Session(StateOf(store.Snap(), id), Journal(store.Snap(), id), Journal(store.Snap(), id), 0)
    {
      this.store, this.id := store, id;
      journal := Journal(store.Snap(), id);
      cursor := 0;
    }

    function View(): Durable.Session
      reads this, store
    {
      Durable.Session(StateOf(store.Snap(), id), Journal(store.Snap(), id), journal, cursor)
    }

    // Consumes the next journal slot.
    method TakeEntry(kind: Kind) returns (idx: nat, e: Option<Entry>, aligned: bool)
      modifies this`cursor
      ensures idx == old(cursor) && cursor == idx + 1
      ensures e == (if idx < |journal| then Some(journal[idx]) else None)
      ensures aligned <==> e.None? || e.value.kind == kind
    {
      idx, e, aligned := cursor, None, true;
      cursor := cursor + 1;
      if idx < |journal| {
        e := Some(journal[idx]);
        aligned := journal[idx].kind == kind;
      }
    }

    // The suspension is in the store before the body is unwound.
    method Suspend(idx: nat, e: Entry, wait: Wait, resumeAt: int) returns (r: Durable.Reply)
      requires !wait.NoWait?
      modifies this`journal, store
      ensures var state := if wait.EventWait? then Durable.Awaiting(wait.event, resumeAt) else Durable.Asleep(resumeAt);
        (View(), r) == Durable.Record(old(View()), idx, e, state)
      ensures OnlyStep(old(store.Snap()), store.Snap(), id)
    {
      var ok := store.SuspendWithJournal(id, idx, e, wait, resumeAt);
      if !ok {
        return Durable.Returned(Durable.Refused);
      }
      journal := journal + [e];
      return Durable.Unwound;
    }

    method Resuspend(wait: Wait, resumeAt: int) returns (r: Durable.Reply)
      requires !wait.NoWait?
      modifies store
      ensures var state := if wait.EventWait? then Durable.Awaiting(wait.event, resumeAt) else Durable.Asleep(resumeAt);
        (View(), r) == Durable.Resuspend(old(View()), state)
      ensures OnlyStep(old(store.Snap()), store.Snap(), id)
    {
      var ok := store.SuspendStep(id, wait, resumeAt);
      return if ok then Durable.Unwound else Durable.Returned(Durable.Refused);
    }

    method Append(idx: nat, e: Entry) returns (ok: bool)
      modifies this`journal, store
      ensures ok <==> Durable.CanAppend(old(View()), idx)
      ensures View() == if ok then Durable.Appended(old(View()), e) else old(View())
      ensures OnlyStep(old(store.Snap()), store.Snap(), id)
    {
      ok := store.AppendJournal(id, idx, e);
      if ok {
        journal := journal + [e];
      }
    }

    method Sleep(d: int, now: int) returns (r: Durable.Reply)
      modifies this, store
      ensures (View(), r) == Durable.SleepCall(old(View()), d, now)
      ensures OnlyStep(old(store.Snap()), store.Snap(), id)
    {
      var idx, e, aligned := TakeEntry(Kind.Sleep);
      if !aligned {
        return Durable.Returned(Durable.Misaligned);
      }
      if e.None? {
        var wake := now + d;
        if d <= 0 {
          var ok := Append(idx, Durable.SleepEntry(wake, true));
          return Durable.Returned(if ok then Durable.Slept else Durable.Refused);
        }
        r := Suspend(idx, Durable.SleepEntry(wake, false), SleepWait, wake);
        return;
      }
      if e.value.wakeAt > now {
        r := Resuspend(SleepWait, e.value.wakeAt);
        return;
      }
      return Durable.Returned(Durable.Slept);
    }

    // `out` is the outcome of the function, should the call get to it.
    method RunOnce(key: Str, out: Option<Str>) returns (r: Durable.Reply, invoked: bool)
      modifies this, store
      ensures (View(), r) == Durable.OnceCall(old(View()), key, out)
      ensures invoked == Durable.Invokes(old(View()), key)
      ensures OnlyStep(old(store.Snap()), store.Snap(), id)
    {
      invoked := false;
      var idx, e, aligned := TakeEntry(Kind.Once);
      if !aligned || (e.Some? && e.value.key != key) {
        return Durable.Returned(Durable.Misaligned), false;
      }
      if e.Some? && e.value.done {
        return Durable.Returned(Durable.Got(e.value.result)), false;
      }
      if e.None? {
        if idx != |journal| {
          return Durable.Returned(Durable.Refused), false;
        }
        var ok := Append(idx, Durable.OnceEntry(key));
        if !ok {
          return Durable.Returned(Durable.Refused), false;
        }
      }
      invoked := true;
      if out.None? {
        return Durable.Returned(Durable.Erred), true;
      }
      store.CompleteJournalOnce(id, idx, out.value);
      journal := journal[idx := journal[idx].(done := true, result := out.value)];
      r := Durable.Returned(Durable.Got(out.value));
    }

    method WaitFor(event: Str, timeout: int, now: int) returns (r: Durable.Reply)
      modifies this, store
      ensures (View(), r) == Durable.WaitCall(old(View()), event, timeout, now)
      ensures OnlyStep(old(store.Snap()), store.Snap(), id)
    {
      var idx, e, aligned := TakeEntry(Kind.WaitFor);
      if !aligned {
        return Durable.Returned(Durable.Misaligned);
      }
      if e.None? {
        var deadline := 0;
        if timeout > 0 {
          deadline := now + timeout;
        }
        r := Suspend(idx, Durable.WaitEntry(event, deadline), EventWait(event), deadline);
        return;
      }
      if e.value.event != event {
        return Durable.Returned(Durable.Misaligned);
      }
      if e.value.done {
        return Durable.Returned(Durable.WaitResult(e.value));
      }
      if e.value.deadline > 0 && now >= e.value.deadline {
        var won := store.TimeoutWait(id, idx);
        if won {
          return Durable.Returned(Durable.TimedOut);
        }
        var rows := Journal(store.Snap(), id);
        if idx < |rows| && rows[idx].done && !rows[idx].timedOut {
          return Durable.Returned(Durable.WaitResult(rows[idx]));
        }
        return Durable.Returned(Durable.TimedOut);
      }
      r := Resuspend(EventWait(event), e.value.deadline);
    }
  }
}
