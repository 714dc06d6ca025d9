// The executor of a claimed step: which transaction ends the claim, what that
// transaction leaves of the step, and how a cancellation that arrives while the
// step executes reaches it. The executor reads the run's status before, and not
// within, the transaction it chooses.

module Executors {
  import opened Names
  import opened Schema
  import opened Transitions
  import opened Machine
  import Effects
  import opened Stores

  // How the body came back: a hook vetoed it, a durable call unwound it, or it
  // returned. `interrupted` says that the error is the context's cancellation.
  datatype Ending =
    | Vetoed(error: Str)
    | Unwound
    | Returned(output: Str)
    | Erred(error: Str, interrupted: bool)

  // What becomes of a claim: a transaction, a completion for the completer, or
  // nothing (the step is suspended, or left to the shutdown sweep).
  datatype Verdict = Recorded(op: Op) | Submitted(output: Str) | Left

  const PARK_TIME := 5_000_000_000

  predicate Terminal(db: Db, run: Str) {
    run in db.runs && IsTerminal(db.runs[run].status)
  }

  // Before the body: None lets it start.
  function AtStart(id: StepId, registered: bool, stop: bool, paused: bool, note: Str, now: int): Option<Op> {
    if !registered then Some(StepParked(id, note, now + PARK_TIME, now))
    else if stop then Some(StepStopped(id, now))
    else if paused then Some(StepRequeued(id, now))
    else None
  }

  // What the executor has read by the time the body is back.
  datatype Reads = Reads(terminal: bool, paused: bool, closing: bool, deadLetter: bool, retryAt: int)

  // `s` is the row as it was claimed.
  function AtEnd(id: StepId, s: Step, ending: Ending, r: Reads, now: int): Verdict {
    match ending
    case Unwound => if r.terminal then Recorded(StepStopped(id, now)) else Left
    case Returned(output) => Submitted(output)
    case Vetoed(error) =>
      if r.terminal then Recorded(StepStopped(id, now)) else Recorded(StepFailed(id, error, r.deadLetter, now))
    case Erred(error, interrupted) =>
      if r.paused && interrupted && !r.terminal then Recorded(StepRequeued(id, now))
      else if r.terminal then Recorded(StepStopped(id, now))
      else if r.closing then Left
      else if s.attempts < s.maxAttempts then Recorded(StepRetried(id, error, r.retryAt, now))
      else Recorded(StepFailed(id, error, r.deadLetter, now))
  }

  ghost function Act(db: Db, v: Verdict): Db {
    if v.Recorded? then Apply(db, v.op) else db
  }

  // ---- what the transactions demand ------------------------------------------------------

  // One executor per claim: while the step is RUNNING its row counts the claim.
  predicate Claimed(db: Db, id: StepId, s: Step) {
    IsRunning(db, id) ==> db.steps[id].attempts == s.attempts && db.steps[id].maxAttempts == s.maxAttempts
  }

  lemma StartIsEnabled(db: Db, id: StepId, registered: bool, halted: bool, paused: bool, note: Str, now: int)
    ensures var op := AtStart(id, registered, halted && Terminal(db, id.run), paused, note, now);
      op.Some? ==> Enabled(db, op.value)
  {
  }

  // A run read as terminal that has not been reopened, and a live one whatever has
  // happened to it since: the choice is one the store's machine allows.
  lemma EndIsEnabled(db: Db, id: StepId, s: Step, ending: Ending, r: Reads, now: int)
    requires Claimed(db, id, s) && (r.terminal ==> !Live(db, id.run))
    ensures var v := AtEnd(id, s, ending, r, now); v.Recorded? ==> Enabled(db, v.op)
  {
  }

  // ---- what they leave -------------------------------------------------------------------

  // The step as the executor's transaction leaves it, unless its run's row goes.
  predicate Ends(s: Step, ending: Ending, r: Reads, s1: Step) {
    if r.terminal then s1.status.Cancelled? && s1.attempts == s.attempts
    else match ending
      case Vetoed(error) => s1.status.Failed? && s1.error == error
      case Erred(error, interrupted) =>
        if r.paused && interrupted then s1.status.Queued? && s1.attempts == Refunded(s) && s1.error == s.error
        else if r.closing then s1 == s
        else if s.attempts < s.maxAttempts then
          s1.status.Queued? && s1.attempts == s.attempts && s1.error == error && s1.runAt == r.retryAt
        else s1.status.Failed? && s1.error == error && s1.attempts == s.attempts
      case _ => true
  }

  // A claim whose task did not return a value is over: retried while attempts are
  // left, refunded when a pause took it back, stopped with its run, or final.
  lemma ClaimEnds(db: Db, id: StepId, s: Step, ending: Ending, r: Reads, now: int)
    requires IsRunning(db, id) && db.steps[id] == s && id.run in db.runs
    requires r.terminal <==> Terminal(db, id.run)
    requires ending.Vetoed? || ending.Erred?
    ensures var db1 := Act(db, AtEnd(id, s, ending, r, now));
      && (id in db1.steps ==> Ends(s, ending, r, db1.steps[id]))
      && (id !in db1.steps ==> db.runs[id.run].ephemeral && id.run !in db1.runs)
      && (id in db1.steps && db1.steps[id].status.Failed? ==>
            db1.runs[id.run].status.Failed? && db1.runs[id.run].deadAt == if r.deadLetter then now else db.runs[id.run].deadAt)
  {
  }

  // The value a body returned goes to the completer as it is, and from there into the
  // step's row if the run is live; in a run that is over the step is CANCELLED.
  lemma ReturnIsKept(db: Db, id: StepId, s: Step, output: Str, r: Reads, now: int, later: int)
    requires IsRunning(db, id) && id.run in db.runs && !db.runs[id.run].ephemeral
    ensures var v := AtEnd(id, s, Returned(output), r, now);
      && v.Submitted? && Act(db, v) == db
      && var db1 := CompleteStep(db, id, v.output, later).value.0;
         && id in db1.steps
         && db1.steps[id] ==
              if Terminal(db, id.run) then db.steps[id].(status := Cancelled)
              else db.steps[id].(status := Succeeded, output := output, error := Empty)
  {
    if !Terminal(db, id.run) {
      Effects.CompletedSteps(db, id, output, later);
    }
  }

  // A body that unwound left its step suspended, and the executor leaves it so unless
  // the run is over.
  lemma UnwindLeaves(db: Db, id: StepId, s: Step, r: Reads, now: int)
    requires id in db.steps && db.steps[id].status.Suspended? && (r.terminal <==> Terminal(db, id.run))
    ensures var db1 := Act(db, AtEnd(id, s, Unwound, r, now));
      if Terminal(db, id.run) then db1 == db.(steps := db.steps[id := db.steps[id].(status := Cancelled, resumeAt := 0, wait := NoWait)])
      else db1 == db
  {
  }

  // A claim whose task is not registered is parked for five seconds, one that was told
  // to stop is CANCELLED, one whose run was paused goes back, and every other starts.
  lemma StartLeaves(db: Db, id: StepId, registered: bool, stop: bool, paused: bool, note: Str, now: int)
    requires IsRunning(db, id)
    ensures var op, s := AtStart(id, registered, stop, paused, note, now), db.steps[id];
      var refunded := if s.attempts > 0 then s.attempts - 1 else s.attempts;
      if registered && !stop && !paused then op.None?
      else
        && op.Some?
        && Apply(db, op.value).steps[id] ==
             if !registered then s.(status := Queued, error := note, runAt := now + 5_000_000_000, claimedAt := 0, attempts := refunded)
             else if stop then s.(status := Cancelled, resumeAt := 0, wait := NoWait)
             else s.(status := Queued, claimedAt := 0, worker := Empty, lease := 0, attempts := refunded)
  {
    var op := AtStart(id, registered, stop, paused, note, now);
    if !registered {
      assert Apply(db, op.value) == ParkStep(db, id, note, now + PARK_TIME);
    } else if stop {
      assert Apply(db, op.value) == StepCancelled(db, id);
    } else if paused {
      assert Apply(db, op.value) == RequeuePausedStep(db, id);
    }
  }

  // ---- a run that ends behind the executor's back ------------------------------------------

  // The verdicts that return a step to the queue.
  predicate Requeues(s: Step, ending: Ending, r: Reads) {
    !r.terminal && ending.Erred? && ((r.paused && ending.interrupted) || (!r.closing && s.attempts < s.maxAttempts))
  }

  // When the run is cancelled after the executor read it as live, a step the
  // executor returns to the queue stays there, in a CANCELLED run; in no other case
  // does it.
  lemma LateReturn(db: Db, id: StepId, s: Step, ending: Ending, r: Reads, cancelledAt: int, now: int)
    requires IsRunning(db, id) && db.steps[id] == s && Live(db, id.run) && !db.runs[id.run].ephemeral
    ensures var db1 := CancelRun(db, id.run, cancelledAt);
      var db2 := Act(db1, AtEnd(id, s, ending, r, now));
      && IsRunning(db1, id) && db1.runs[id.run].status.Cancelled?
      && id in db2.steps
      && (db2.steps[id].status.Queued? <==> Requeues(s, ending, r))
  {
  }

  // And from there it is claimed again: the gates ask of its run only that it is
  // not paused.
  lemma LateReturnExecutes(db: Db, id: StepId, s: Step, ending: Ending, r: Reads, cancelledAt: int, now: int, at: int)
    requires IsRunning(db, id) && db.steps[id] == s && Live(db, id.run) && !db.runs[id.run].ephemeral
    requires Requeues(s, ending, r)
    ensures var db2 := Act(CancelRun(db, id.run, cancelledAt), AtEnd(id, s, ending, r, now));
      && (Claimable(db2, id, false, at) <==>
            KeyGate(db2.steps, id) && KeysGate(db2.steps, id) && SequenceGate(db2.steps, id) && s.queue !in db2.pausedQueues)
  {
    LateReturn(db, id, s, ending, r, cancelledAt, now);
  }

  // ---- cancellations and executors meet ------------------------------------------------------

  // The engine's side tables. An executor is told to stop when its context is
  // cancelled or it finds a tombstone at its registration.
  datatype Board = Board(cancels: set<StepId>, halts: set<StepId>, told: set<StepId>)

  datatype Event = Interrupted(ids: set<StepId>) | Registered(id: StepId) | Finished(id: StepId)

  const CLEAR := Board({}, {}, {})

  function Happen(b: Board, ev: Event): Board {
    match ev
    case Interrupted(ids) =>
      b.(told := b.told + ids * b.cancels, halts := b.halts + (ids - b.cancels))
    case Registered(id) =>
      b.(cancels := b.cancels + {id}, halts := b.halts - {id}, told := if id in b.halts then b.told + {id} else b.told)
    case Finished(id) =>
      b.(cancels := b.cancels - {id}, told := b.told - {id})
  }

  function After(evs: seq<Event>): Board {
    if evs == [] then CLEAR else Happen(After(evs[..|evs| - 1]), evs[|evs| - 1])
  }

  // Executors register before they finish, one at a time for a step.
  predicate Orderly(evs: seq<Event>) {
    evs == [] ||
    (var front, last := evs[..|evs| - 1], evs[|evs| - 1];
     && Orderly(front)
     && (last.Registered? ==> last.id !in After(front).cancels)
     && (last.Finished? ==> last.id in After(front).cancels))
  }

  // Interrupted since an executor of the step last finished.
  predicate Wanted(evs: seq<Event>, id: StepId) {
    evs != [] &&
    (var last := evs[|evs| - 1];
     if last.Interrupted? && id in last.ids then true
     else last != Finished(id) && Wanted(evs[..|evs| - 1], id))
  }

  // Whichever comes first, the registration or the cancellation: exactly the steps
  // somebody interrupted have an executor that was told, or a tombstone for the next.
  lemma {:induction false} NoInterruptLost(evs: seq<Event>, id: StepId)
    requires Orderly(evs)
    ensures id in After(evs).told <==> Wanted(evs, id) && id in After(evs).cancels
    ensures id in After(evs).halts <==> Wanted(evs, id) && id !in After(evs).cancels
  {
    if evs != [] {
      NoInterruptLost(evs[..|evs| - 1], id);
    }
  }

  function Elements(ids: seq<StepId>): set<StepId> {
    set id | id in ids
  }

  function Siblings(db: Db, id: StepId): set<StepId> {
    set name | name in SiblingNames(db.steps, id) :: StepId(id.run, name)
  }

  ghost predicate Fails(v: Verdict) {
    v.Recorded? && v.op.StepFailed?
  }

  // The board once a final failure has cancelled the step's siblings.
  function Failing(b: Board, db: Db, id: StepId): Board {
    if id.run in db.runs then Happen(b, Event.Interrupted(Siblings(db, id))) else b
  }

  class Executor {
    const store: Store
    var cancels: set<StepId>
    var haltSteps: set<StepId>
    var pauseSteps: set<StepId>
    ghost var told: set<StepId>
    var closing: bool

    constructor (store: Store)
      ensures this.store == store && View() == CLEAR && pauseSteps == {} && !closing
    {
      this.store := store;
      cancels, haltSteps, pauseSteps, told, closing := {}, {}, {}, {}, false;
    }

    ghost function View(): Board
      reads this
    {
      Board(cancels, haltSteps, told)
    }

    // cancelStepContexts, and the loop of interruptLocal.
    method CancelStepContexts(ids: seq<StepId>)
      modifies this`haltSteps, this`told
      ensures View() == Happen(old(View()), Event.Interrupted(Elements(ids)))
    {
      for i := 0 to |ids|
        invariant told == old(told) + Elements(ids[..i]) * cancels
        invariant haltSteps == old(haltSteps) + (Elements(ids[..i]) - cancels)
      {
        assert Elements(ids[..i + 1]) == Elements(ids[..i]) + {ids[i]};
        if ids[i] in cancels {
          told := told + {ids[i]};
        } else {
          haltSteps := haltSteps + {ids[i]};
        }
      }
      assert ids[..|ids|] == ids;
    }

    method Register(id: StepId) returns (halted: bool)
      modifies this`cancels, this`haltSteps, this`told
      ensures View() == Happen(old(View()), Registered(id)) && halted == (id in old(haltSteps))
    {
      halted := id in haltSteps;
      if halted {
        told := told + {id};
      }
      cancels, haltSteps := cancels + {id}, haltSteps - {id};
    }

    method Unregister(id: StepId)
      modifies this`cancels, this`told
      ensures View() == Happen(old(View()), Finished(id))
    {
      cancels, told := cancels - {id}, told - {id};
    }

    method ConsumePause(id: StepId) returns (paused: bool)
      modifies this`pauseSteps
      ensures paused == (id in old(pauseSteps)) && pauseSteps == old(pauseSteps) - {id}
    {
      paused := id in pauseSteps;
      pauseSteps := pauseSteps - {id};
    }

    method RunTerminal(run: Str) returns (terminal: bool)
      ensures terminal == Terminal(store.Snap(), run)
    {
      terminal := run in store.runs && IsTerminal(store.runs[run].status);
    }

    // The part of execute before the body.
    method Begin(id: StepId, registered: bool, note: Str, now: int) returns (start: bool)
      modifies this`cancels, this`haltSteps, this`told, this`pauseSteps, store`steps
      ensures var stop := id in old(haltSteps) && Terminal(old(store.Snap()), id.run);
        var op := AtStart(id, registered, stop, id in old(pauseSteps), note, now);
        && (start <==> op.None?)
        && store.Snap() == (if op.Some? then Apply(old(store.Snap()), op.value) else old(store.Snap()))
        && pauseSteps == (if registered && !stop then old(pauseSteps) - {id} else old(pauseSteps))
      ensures var met := Happen(old(View()), Registered(id));
        View() == if start then met else if registered then Happen(met, Finished(id)) else old(View())
    {
      if !registered {
        store.ParkStep(id, note, now + PARK_TIME);
        return false;
      }
      var halted := Register(id);
      if halted {
        var terminal := RunTerminal(id.run);
        if terminal {
          store.StepCancelled(id);
          Unregister(id);
          return false;
        }
      }
      var paused := ConsumePause(id);
      if paused {
        store.RequeuePausedStep(id);
        Unregister(id);
        return false;
      }
      return true;
    }

    // The part after it. A returned value goes to the completer.
    method End(id: StepId, s: Step, ending: Ending, deadLetter: bool, retryAt: int, now: int) returns (submitted: Option<Str>)
      modifies this`cancels, this`told, this`haltSteps, this`pauseSteps, store`runs, store`steps, store`journal
      ensures var db := old(store.Snap());
        var r := Reads(Terminal(db, id.run), id in old(pauseSteps), old(closing), deadLetter, retryAt);
        var v := AtEnd(id, s, ending, r, now);
        && store.Snap() == Act(db, v)
        && submitted == (if v.Submitted? then Some(v.output) else None)
        && pauseSteps == (if ending.Unwound? then old(pauseSteps) else old(pauseSteps) - {id})
        && View() == Happen(if Fails(v) then Failing(old(View()), db, id) else old(View()), Finished(id))
    {
      submitted := None;
      var paused := false;
      if !ending.Unwound? {
        paused := ConsumePause(id);
      }
      var terminal := RunTerminal(id.run);
      if ending.Unwound? {
        if terminal {
          store.StepCancelled(id);
        }
      } else if paused && ending.Erred? && ending.interrupted && !terminal {
        store.RequeuePausedStep(id);
      } else if ending.Vetoed? {
        if terminal {
          store.StepCancelled(id);
        } else {
          RecordFinalFailure(id, ending.error, deadLetter, now);
        }
      } else if ending.Returned? {
        submitted := Some(ending.output);
      } else if terminal {
        store.StepCancelled(id);
      } else if !closing {
        if s.attempts < s.maxAttempts {
          store.RetryStep(id, ending.error, retryAt);
        } else {
          RecordFinalFailure(id, ending.error, deadLetter, now);
        }
      }
      Unregister(id);
    }

    // Fails the step with its run, and tells the executors of its siblings.
    method RecordFinalFailure(id: StepId, error: Str, deadLetter: bool, now: int)
      modifies this`told, this`haltSteps, store`runs, store`steps, store`journal
      ensures store.Snap() == FinalFail(old(store.Snap()), id, error, deadLetter, now)
      ensures View() == Failing(old(View()), old(store.Snap()), id)
    {
      var r := store.FinalFailStep(id, error, deadLetter, now);
      if r.Some? {
        var ids := ListRows(set name | name in r.value.cancelled :: StepId(id.run, name));
        CancelStepContexts(ids);
      }
    }
  }
}
