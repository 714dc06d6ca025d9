// The batched completer: submitters append to a shared list and wake one loop,
// which takes the whole list and commits it. A mutex makes each access to the
// list atomic; between those accesses submitters, the loop and the stop
// interleave in any order.

module Completers {
  import opened Collections

  type Req(==, !new)

  // Where a submitter is: appended but not yet woken the loop, turned away and
  // about to write through, or back.
  datatype Pc = Waking | WritingThrough | Back

  // Where the loop is; `last` marks the flush after the stop.
  datatype Loop =
    | Parked
    | Stopping
    | Taking(last: bool)
    | Committing(batch: seq<Req>, last: bool)
    | FallingBack(rest: seq<Req>, last: bool)
    | Closing
    | Exited

  datatype State = State(
    submitters: map<Req, Pc>,
    loop: Loop,
    pending: seq<Req>,
    stopped: bool,
    wake: bool,            // the one slot of the wake channel
    stop: bool,            // the stop channel is closed
    done: bool,            // the done channel is closed
    accepted: seq<Req>,    // every request that was appended, in order
    handed: seq<Req>,      // those the loop has handed to the store, in order
    through: seq<Req>)     // those submitters wrote through

  const INITIAL := State(map[], Parked, [], false, false, false, false, [], [], [])

  datatype Action =
    | Submit(r: Req)
    | Send(r: Req)
    | WriteThrough(r: Req)
    | Stop
    | Wake
    | Notice
    | Flip
    | Take
    | Commit
    | Fail
    | Fallback
    | Close

  predicate Enabled(s: State, a: Action) {
    match a
    case Submit(r) => r !in s.submitters
    case Send(r) => r in s.submitters && s.submitters[r].Waking?
    case WriteThrough(r) => r in s.submitters && s.submitters[r].WritingThrough?
    case Stop => true
    case Wake => s.loop.Parked? && s.wake
    case Notice => s.loop.Parked? && s.stop
    case Flip => s.loop.Stopping?
    case Take => s.loop.Taking?
    case Commit => s.loop.Committing?
    case Fail => s.loop.Committing?
    case Fallback => s.loop.FallingBack? && s.loop.rest != []
    case Close => s.loop.Closing?
  }

  // The loop after a flush.
  function Resume(last: bool): Loop {
    if last then Closing else Parked
  }

  function Next(s: State, a: Action): State
    requires Enabled(s, a)
  {
    match a
    case Submit(r) =>
      if s.stopped then s.(submitters := s.submitters[r := WritingThrough])
      else s.(submitters := s.submitters[r := Waking], pending := s.pending + [r], accepted := s.accepted + [r])
    case Send(r) => s.(submitters := s.submitters[r := Back], wake := true)
    case WriteThrough(r) => s.(submitters := s.submitters[r := Back], through := s.through + [r])
    case Stop => s.(stop := true)
    case Wake => s.(wake := false, loop := Taking(false))
    case Notice => s.(loop := Stopping)
    case Flip => s.(stopped := true, loop := Taking(true))
    case Take =>
      if s.pending == [] then s.(loop := Resume(s.loop.last))
      else s.(pending := [], loop := Committing(s.pending, s.loop.last))
    case Commit => s.(handed := s.handed + s.loop.batch, loop := Resume(s.loop.last))
    case Fail => s.(loop := FallingBack(s.loop.batch, s.loop.last))
    case Fallback =>
      s.(handed := s.handed + [s.loop.rest[0]],
         loop := if |s.loop.rest| == 1 then Resume(s.loop.last) else FallingBack(s.loop.rest[1..], s.loop.last))
    case Close => s.(done := true, loop := Exited)
  }

  // Any interleaving; an action that is not enabled does not happen.
  function Exec(actions: seq<Action>): State {
    if actions == [] then INITIAL
    else
      var s := Exec(actions[..|actions| - 1]);
      if Enabled(s, actions[|actions| - 1]) then Next(s, actions[|actions| - 1]) else s
  }

  // ---- the invariant ------------------------------------------------------------------------

  // What the loop took and has not handed over yet.
  function InHand(l: Loop): seq<Req> {
    match l
    case Committing(batch, _) => batch
    case FallingBack(rest, _) => rest
    case _ => []
  }

  predicate Drained(l: Loop) {
    match l
    case Committing(_, last) => last
    case FallingBack(_, last) => last
    case Closing => true
    case Exited => true
    case _ => false
  }

  predicate AboutToTake(l: Loop) {
    l.Taking? || l.Stopping?
  }

  ghost predicate SomeoneWakes(s: State) {
    exists r :: r in s.submitters && s.submitters[r].Waking?
  }

  // Every accepted request is handed over, in hand, or pending, in that order.
  predicate Conserved(s: State) {
    s.handed + InHand(s.loop) + s.pending == s.accepted
  }

  // A submitted request is accepted, written through, or about to be: one of the
  // three, once.
  ghost predicate Accounted(s: State) {
    && Distinct(s.accepted) && Distinct(s.through)
    && (forall r | r in s.submitters ::
          (r in s.accepted && r !in s.through && !s.submitters[r].WritingThrough?)
          || (r !in s.accepted && r in s.through && s.submitters[r].Back?)
          || (r !in s.accepted && r !in s.through && s.submitters[r].WritingThrough?))
    && (forall r | r in s.accepted || r in s.through :: r in s.submitters)
  }

  ghost predicate Inv(s: State) {
    && Conserved(s)
    && Accounted(s)
    && (s.stopped <==> Drained(s.loop) || (s.loop.Taking? && s.loop.last))
    && (Drained(s.loop) ==> s.pending == [])
    && (s.done <==> s.loop.Exited?)
    && (s.loop.FallingBack? ==> s.loop.rest != [])
    && (s.loop.Committing? ==> s.loop.batch != [])
    && (s.pending != [] ==> s.wake || SomeoneWakes(s) || AboutToTake(s.loop))
  }

  lemma AccountedPush(s: State, r: Req)
    requires Accounted(s) && r !in s.submitters
    ensures Accounted(s.(submitters := s.submitters[r := Waking], pending := s.pending + [r], accepted := s.accepted + [r]))
  {
    var s1 := s.accepted + [r];
    assert forall x :: x in s1 <==> x in s.accepted || x == r;
    forall i, j | 0 <= i < j < |s1| ensures s1[i] != s1[j] {
      if j == |s.accepted| {
        assert s1[i] in s.accepted;
      }
    }
  }

  lemma AccountedThrough(s: State, r: Req)
    requires Accounted(s) && r in s.submitters && s.submitters[r].WritingThrough?
    ensures Accounted(s.(submitters := s.submitters[r := Back], through := s.through + [r]))
  {
    var s1 := s.through + [r];
    assert forall x :: x in s1 <==> x in s.through || x == r;
    forall i, j | 0 <= i < j < |s1| ensures s1[i] != s1[j] {
      if j == |s.through| {
        assert s1[i] in s.through;
      }
    }
  }

  lemma AccountedMark(s: State, r: Req, wake: bool)
    requires Accounted(s)
    ensures r !in s.submitters ==> Accounted(s.(submitters := s.submitters[r := WritingThrough]))
    ensures r in s.submitters && s.submitters[r].Waking? ==> Accounted(s.(submitters := s.submitters[r := Back], wake := wake))
  {
  }

  // The loop touches no submitter.
  lemma AccountedAlike(s: State, s1: State)
    requires Accounted(s) && s1.submitters == s.submitters && s1.accepted == s.accepted && s1.through == s.through
    ensures Accounted(s1)
  {
  }

  lemma NextKeepsAccounts(s: State, a: Action)
    requires Accounted(s) && Enabled(s, a)
    ensures Accounted(Next(s, a))
  {
    match a
    case Submit(r) =>
      if s.stopped {
        AccountedMark(s, r, s.wake);
      } else {
        AccountedPush(s, r);
      }
    case Send(r) => AccountedMark(s, r, true);
    case WriteThrough(r) => AccountedThrough(s, r);
    case _ => AccountedAlike(s, Next(s, a));
  }

  lemma NextConserves(s: State, a: Action)
    requires Conserved(s) && Enabled(s, a)
    requires Drained(s.loop) ==> s.pending == []
    ensures Conserved(Next(s, a))
  {
    match a
    case Submit(r) => assert s.handed + InHand(s.loop) + (s.pending + [r]) == s.accepted + [r] || s.stopped;
    case Commit => assert s.handed + s.loop.batch + [] + s.pending == s.accepted;
    case Fallback =>
      assert s.loop.rest == [s.loop.rest[0]] + s.loop.rest[1..];
      assert s.handed + [s.loop.rest[0]] + s.loop.rest[1..] + s.pending == s.accepted;
    case _ =>
  }

  lemma NextKeepsWakes(s: State, a: Action)
    requires Inv(s) && Enabled(s, a)
    ensures var s1 := Next(s, a); s1.pending != [] ==> s1.wake || SomeoneWakes(s1) || AboutToTake(s1.loop)
  {
    var s1 := Next(s, a);
    if SomeoneWakes(s) && !a.Send? {
      var r :| r in s.submitters && s.submitters[r].Waking?;
      assert r in s1.submitters && s1.submitters[r].Waking?;
    }
    if a.Submit? && !s.stopped {
      assert a.r in s1.submitters && s1.submitters[a.r].Waking?;
    }
  }

  lemma NextKeepsFlags(s: State, a: Action)
    requires Inv(s) && Enabled(s, a)
    ensures var s1 := Next(s, a);
      && (s1.stopped <==> Drained(s1.loop) || (s1.loop.Taking? && s1.loop.last))
      && (Drained(s1.loop) ==> s1.pending == [])
      && (s1.done <==> s1.loop.Exited?)
      && (s1.loop.FallingBack? ==> s1.loop.rest != [])
      && (s1.loop.Committing? ==> s1.loop.batch != [])
  {
  }

  lemma NextKeeps(s: State, a: Action)
    requires Inv(s) && Enabled(s, a)
    ensures Inv(Next(s, a))
  {
    NextConserves(s, a);
    NextKeepsAccounts(s, a);
    NextKeepsFlags(s, a);
    NextKeepsWakes(s, a);
  }

  lemma {:induction false} Always(actions: seq<Action>)
    ensures Inv(Exec(actions))
  {
    if actions != [] {
      var s, a := Exec(actions[..|actions| - 1]), actions[|actions| - 1];
      Always(actions[..|actions| - 1]);
      if Enabled(s, a) {
        NextKeeps(s, a);
      }
    }
  }

  // ---- what it guarantees -----------------------------------------------------------------------

  // Nothing is lost or handed over twice: in every state, each submitted request
  // is exactly one of handed to the store by the loop, in the loop's hand, pending,
  // written through, or about to be written through and in none of the lists; and
  // the loop hands requests over in the order they were appended.
  lemma ExactlyOnce(actions: seq<Action>)
    ensures var s := Exec(actions);
      && s.handed + InHand(s.loop) + s.pending == s.accepted && Distinct(s.accepted + s.through)
      && (forall r :: r in s.submitters <==> r in s.accepted || r in s.through || (r in s.submitters && s.submitters[r].WritingThrough?))
      && forall r | r in s.submitters && s.submitters[r].WritingThrough? :: r !in s.accepted && r !in s.through
  {
    Always(actions);
    var s := Exec(actions);
    var all := s.accepted + s.through;
    forall i, j | 0 <= i < j < |all| ensures all[i] != all[j] {
      if i < |s.accepted| <= j {
        assert all[i] in s.accepted && all[j] in s.through;
      }
    }
  }

  // Once the done channel is closed nothing is pending and nothing is in hand:
  // every accepted request has been handed over.
  lemma DoneMeansDrained(actions: seq<Action>)
    requires Exec(actions).done
    ensures Exec(actions).pending == [] && Exec(actions).handed == Exec(actions).accepted
  {
    Always(actions);
  }

  // No wake is lost: when the loop is parked, no wake is buffered and no submitter
  // is between its append and its send, nothing is pending.
  lemma NoLostWake(actions: seq<Action>)
    requires var s := Exec(actions); s.loop.Parked? && !s.wake && !SomeoneWakes(s)
    ensures Exec(actions).pending == [] && Exec(actions).handed == Exec(actions).accepted
  {
    Always(actions);
  }

  predicate ByLoop(a: Action) {
    a.Wake? || a.Notice? || a.Flip? || a.Take? || a.Commit? || a.Fail? || a.Fallback? || a.Close?
  }

  // The loop is never stuck: unless it has exited, or waits with neither a wake
  // nor a stop to receive, it has a step to take.
  lemma LoopCanMove(actions: seq<Action>)
    requires var s := Exec(actions); !s.loop.Exited? && (s.loop.Parked? ==> s.wake || s.stop)
    ensures exists a: Action :: ByLoop(a) && Enabled(Exec(actions), a)
  {
    Always(actions);
    var s := Exec(actions);
    var a := match s.loop
      case Parked => if s.wake then Wake else Notice
      case Stopping => Flip
      case Taking(_) => Take
      case Committing(_, _) => Commit
      case FallingBack(_, _) => Fallback
      case _ => Close;
    assert ByLoop(a) && Enabled(s, a);
  }

  // A submission after the stop flag is never appended, so it is never left behind.
  lemma LateSubmitsWriteThrough(actions: seq<Action>, r: Req)
    requires Exec(actions).stopped && r !in Exec(actions).submitters
    ensures Next(Exec(actions), Submit(r)).accepted == Exec(actions).accepted
    ensures Next(Exec(actions), Submit(r)).submitters[r].WritingThrough?
  {
  }

  // ---- the engine's fields ------------------------------------------------------------------------

  // The fields the goroutines share, and a method for each atomic step they take.
  class Completer {
    var cmplPending: seq<Req>
    var cmplStopped: bool
    var cmplWake: bool
    var cmplStop: bool
    var cmplDone: bool
    ghost var submitters: map<Req, Pc>
    ghost var loop: Loop
    ghost var accepted: seq<Req>
    ghost var handed: seq<Req>
    ghost var through: seq<Req>

    ghost function Snap(): State
      reads this
    {
      State(submitters, loop, cmplPending, cmplStopped, cmplWake, cmplStop, cmplDone, accepted, handed, through)
    }

    constructor ()
      ensures Snap() == INITIAL
    {
      cmplPending, cmplStopped, cmplWake, cmplStop, cmplDone := [], false, false, false, false;
      submitters, loop, accepted, handed, through := map[], Parked, [], [], [];
    }

    // submitCompletion under the mutex; false sends the caller to completeDirect.
    method Append(r: Req) returns (appended: bool)
      requires Enabled(Snap(), Submit(r))
      modifies this
      ensures Snap() == Next(old(Snap()), Submit(r)) && appended == !old(cmplStopped)
    {
      if cmplStopped {
        submitters := submitters[r := WritingThrough];
        return false;
      }
      cmplPending := cmplPending + [r];
      submitters, accepted := submitters[r := Waking], accepted + [r];
      return true;
    }

    // The non-blocking send on the one-slot channel.
    method SendWake(r: Req)
      requires Enabled(Snap(), Send(r))
      modifies this
      ensures Snap() == Next(old(Snap()), Send(r))
    {
      if !cmplWake {
        cmplWake := true;
      }
      submitters := submitters[r := Back];
    }

    method StopCompleter()
      modifies this
      ensures Snap() == Next(old(Snap()), Stop)
    {
      if !cmplStop {
        cmplStop := true;
      }
    }

    // The stop arm of the loop, under the mutex.
    method FlipStopped()
      requires Enabled(Snap(), Flip)
      modifies this
      ensures Snap() == Next(old(Snap()), Flip)
    {
      cmplStopped := true;
      loop := Taking(true);
    }

    // flushCompletions under the mutex.
    method TakeBatch() returns (batch: seq<Req>)
      requires Enabled(Snap(), Take)
      modifies this
      ensures Snap() == Next(old(Snap()), Take) && batch == old(cmplPending)
    {
      batch := cmplPending;
      if |batch| == 0 {
        loop := Resume(loop.last);
        return;
      }
      cmplPending := [];
      loop := Committing(batch, loop.last);
    }
  }
}
