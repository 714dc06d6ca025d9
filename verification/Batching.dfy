// Why runs may be inserted in batches: a run without a unique key and without a
// strategy reads nothing, so its insert can wait for the next run that does.

module Batching {
  import opened Collections
  import opened Names
  import opened Schema
  import opened Transitions
  import opened Enqueue
  import opened Machine
  import opened Frame
  import opened Unique

  // ---- the counter can be advanced first --------------------------------------------------

  function At(db: Db, next: int): Db {
    db.(next := next)
  }

  lemma {:induction false} InsertedAllAt(db: Db, batch: seq<NewRun>, next: int)
    ensures InsertedAll(At(db, next), batch) == At(InsertedAll(db, batch), next)
  {
    if batch != [] {
      InsertedAllAt(db, batch[..|batch| - 1], next);
    }
  }

  lemma CancelAt(db: Db, run: Str, running: bool, now: int, next: int)
    ensures CancelRow(At(db, next), run, running, now) == At(CancelRow(db, run, running, now), next)
    ensures CancelOrDelete(At(db, next), run, now) == At(CancelOrDelete(db, run, now), next)
  {
  }

  lemma {:induction false} CancelAllAt(db: Db, victims: seq<Str>, now: int, next: int)
    ensures CancelAll(At(db, next), victims, now) == At(CancelAll(db, victims, now), next)
  {
    if victims != [] {
      CancelAllAt(db, victims[..|victims| - 1], now, next);
      CancelAt(CancelAll(db, victims[..|victims| - 1], now), victims[|victims| - 1], false, now, next);
    }
  }

  lemma VictimsAt(db: Db, n: NewRun, next: int)
    ensures StrategyVictims(At(db, next), n) == StrategyVictims(db, n)
  {
    assert Contenders(At(db, next), n.run.key) == Contenders(db, n.run.key);
  }

  function OutcomeAt(out: Outcome, next: int): Outcome {
    match out
    case Rejected(f) => Rejected(f)
    case Enqueued(db, id, replaced) => Enqueued(At(db, next), id, replaced)
  }

  lemma InsertOneAt(db: Db, n: NewRun, replaced: seq<Str>, now: int, next: int)
    ensures InsertOne(At(db, next), n, replaced, now) == OutcomeAt(InsertOne(db, n, replaced, now), next)
  {
    assert Collides(At(db, next), n) <==> Collides(db, n);
    var db1 := Inserted(db, n);
    assert Inserted(At(db, next), n) == At(db1, next);
    VictimsAt(db1, n, next);
    CancelAllAt(db1, StrategyVictims(db1, n), now, next);
  }

  // Resolving a run neither reads nor moves the counter.
  lemma ResolveAt(db: Db, n: NewRun, now: int, next: int)
    ensures Resolve(At(db, next), n, now) == OutcomeAt(Resolve(db, n, now), next)
  {
    var holders := UniqueHolders(db, n.run.workflow, n.run.uniqueKey);
    assert UniqueHolders(At(db, next), n.run.workflow, n.run.uniqueKey) == holders;
    InsertOneAt(db, n, [], now, next);
    if n.run.uniqueKey != Empty && holders != {} {
      var existing := Holder(holders);
      CancelAt(db, existing, true, now, next);
      InsertOneAt(CancelRow(db, existing, true, now), n, [existing], now, next);
    }
  }

  // ---- plain runs only insert ------------------------------------------------------------

  lemma PlainInserts(db: Db, n: NewRun, now: int)
    requires !Immediate(n)
    ensures Resolve(db, n, now) == Enqueued(Inserted(db, n), n.id, [])
  {
  }

  lemma NumberedAt(db: Db, n: NewRun, next: int)
    requires next == if Sequenced(n) then db.next + 1 else db.next
    ensures Numbered(db, n) == At(db, next) && Stamped(n, db.next + 1) == Stamped(n, next)
  {
  }

  lemma EnqueueAt(db: Db, n: NewRun, m: NewRun, now: int, next: int)
    requires next == (if Sequenced(n) then db.next + 1 else db.next) && m == Stamped(n, next)
    ensures EnqueueOne(db, n, now) == OutcomeAt(Resolve(db, m, now), next)
  {
    NumberedAt(db, n, next);
    ResolveAt(db, m, now, next);
  }

  // ---- the order of the contenders is determined -------------------------------------------

  // Runs with a concurrency key have numbers of their own, none above `taken`.
  ghost predicate Apart(runs: map<Str, Run>, taken: int) {
    && (forall r | r in runs && runs[r].key != Empty :: runs[r].seqNo <= taken)
    && forall q, r | q in runs && r in runs && q != r && runs[q].key != Empty && runs[r].key != Empty :: runs[q].seqNo != runs[r].seqNo
  }

  // A listing of live runs of one key in ascending order is the only one.
  lemma {:induction false} OneOrder(runs: map<Str, Run>, taken: int, among: set<Str>, s: seq<Str>)
    requires Apart(runs, taken) && forall x | x in among :: x in runs && runs[x].key != Empty
    requires Distinct(s) && (forall x :: x in s <==> x in among)
    requires forall i, j | 0 <= i < j < |s| :: NoYounger(runs[s[i]], runs[s[j]])
    ensures s == BySeq(runs, among)
    decreases |s|
  {
    if s == [] {
      assert among == {};
    } else {
      assert s[0] in among;
      var r := Oldest(runs, among);
      assert r in s;
      FirstIsOldest(runs, taken, among, s);
      var rest := s[1..];
      forall x ensures x in rest <==> x in among - {r} {
        assert s == [s[0]] + rest;
        if x in rest {
          var i :| 0 <= i < |rest| && rest[i] == x;
          assert s[i + 1] != s[0];
        }
      }
      OneOrder(runs, taken, among - {r}, rest);
    }
  }

  lemma FirstIsOldest(runs: map<Str, Run>, taken: int, among: set<Str>, s: seq<Str>)
    requires Apart(runs, taken) && among != {} && forall x | x in among :: x in runs && runs[x].key != Empty
    requires forall x :: x in s <==> x in among
    requires forall i, j | 0 <= i < j < |s| :: NoYounger(runs[s[i]], runs[s[j]])
    ensures s != [] && s[0] == Oldest(runs, among)
  {
    var r := Oldest(runs, among);
    assert r in s;
    var i :| 0 <= i < |s| && s[i] == r;
    if i > 0 {
      assert s[0] in s && NoYounger(runs[r], runs[s[0]]) && NoYounger(runs[s[0]], runs[r]);
    }
  }

  lemma QuietApart(db: Db, db1: Db, taken: int)
    requires Quiet(db, db1) && Apart(db.runs, taken)
    ensures Apart(db1.runs, taken)
  {
    forall r | r in db1.runs ensures db1.runs[r].key == db.runs[r].key && db1.runs[r].seqNo == db.runs[r].seqNo {
      assert RunFrame(db.runs[r], db1.runs[r]);
    }
  }

  // A run with a key was given the next number.
  predicate Fresh(n: NewRun, taken: int) {
    n.run.key != Empty ==> n.run.seqNo == taken + 1
  }

  lemma InsertApart(db: Db, n: NewRun, taken: int)
    requires Apart(db.runs, taken) && Fresh(n, taken)
    ensures Apart(Inserted(db, n).runs, if n.run.key != Empty then taken + 1 else taken)
  {
  }

  // What resolving a run keeps.
  lemma ResolveKeeps(db: Db, n: NewRun, now: int, taken: int)
    requires UniqueInv(db) && Apart(db.runs, taken) && Fresh(n, taken) && !IsTerminal(n.run.status)
    requires Resolve(db, n, now).Enqueued?
    ensures UniqueInv(Resolve(db, n, now).db)
    ensures Apart(Resolve(db, n, now).db.runs, if n.run.key != Empty then taken + 1 else taken)
  {
    var a, inserted := ResolveParts(db, n, now);
    PartsUnique(db, n, now, Resolve(db, n, now), a, inserted);
    PrepareSteady(db, a, now);
    QuietApart(db, a, taken);
    if inserted {
      InsertApart(a, n, taken);
      StrategySteady(Inserted(a, n), n, now);
      QuietApart(Inserted(a, n), Resolve(db, n, now).db, if n.run.key != Empty then taken + 1 else taken);
    }
  }

  // ---- one more run of a batch ---------------------------------------------------------------

  // The batch so far: `ns` one by one would leave what inserting the pending runs
  // would, with the counter at `taken`.
  ghost predicate SoFar(db: Db, ns: seq<NewRun>, now: int, cur: Db, pending: seq<NewRun>, taken: int, ids: seq<Str>, replaced: seq<Str>) {
    EnqueueAll(db, ns, now) == AllDone(At(InsertedAll(cur, pending), taken), ids, replaced)
  }

  function Next(n: NewRun, taken: int): int {
    if Sequenced(n) then taken + 1 else taken
  }

  lemma LastCounts(out: Outcome, mid: Outcome, first: Outcome, taken: int, next: int)
    requires out == OutcomeAt(mid, next) && mid == OutcomeAt(first, taken)
    ensures out == OutcomeAt(first, next)
  {
  }

  lemma FromNumbered(d: Db, n: NewRun, m: NewRun, now: int, taken: int, next: int)
    requires EnqueueOne(At(d, taken), n, now) == OutcomeAt(Resolve(At(d, taken), m, now), next)
    ensures EnqueueOne(At(d, taken), n, now) == OutcomeAt(Resolve(d, m, now), next)
  {
    ResolveAt(d, m, now, taken);
    LastCounts(EnqueueOne(At(d, taken), n, now), Resolve(At(d, taken), m, now), Resolve(d, m, now), taken, next);
  }

  lemma EnqueueFrom(d: Db, n: NewRun, now: int, taken: int)
    ensures EnqueueOne(At(d, taken), n, now) == OutcomeAt(Resolve(d, Stamped(n, Next(n, taken)), now), Next(n, taken))
  {
    var next := Next(n, taken);
    var m := Stamped(n, next);
    EnqueueAt(At(d, taken), n, m, now, next);
    FromNumbered(d, n, m, now, taken, next);
  }

  lemma OneMoreRun(db: Db, ns: seq<NewRun>, now: int, cur: Db, pending: seq<NewRun>, taken: int, ids: seq<Str>, replaced: seq<Str>)
    requires ns != [] && SoFar(db, ns[..|ns| - 1], now, cur, pending, taken, ids, replaced)
    ensures var n := ns[|ns| - 1];
      EnqueueAll(db, ns, now) ==
        match Resolve(InsertedAll(cur, pending), Stamped(n, Next(n, taken)), now)
        case Rejected(f) => NoneDone(f)
        case Enqueued(db1, id, more) => AllDone(At(db1, Next(n, taken)), ids + [id], replaced + more)
  {
    EnqueueFrom(InsertedAll(cur, pending), ns[|ns| - 1], now, taken);
  }

  // A plain run can be left pending.
  lemma OneMorePlain(db: Db, ns: seq<NewRun>, now: int, cur: Db, pending: seq<NewRun>, taken: int, ids: seq<Str>, replaced: seq<Str>)
    requires ns != [] && SoFar(db, ns[..|ns| - 1], now, cur, pending, taken, ids, replaced) && !Immediate(ns[|ns| - 1])
    ensures var n := ns[|ns| - 1];
      SoFar(db, ns, now, cur, pending + [Stamped(n, Next(n, taken))], Next(n, taken), ids + [n.id], replaced)
  {
    var n := ns[|ns| - 1];
    var m := Stamped(n, Next(n, taken));
    OneMoreRun(db, ns, now, cur, pending, taken, ids, replaced);
    PlainInserts(InsertedAll(cur, pending), m, now);
    assert (pending + [m])[..|pending|] == pending;
  }

  // An immediate run is resolved once the pending ones are in.
  lemma OneMoreImmediate(db: Db, ns: seq<NewRun>, now: int, cur: Db, taken: int, ids: seq<Str>, replaced: seq<Str>)
    requires ns != [] && SoFar(db, ns[..|ns| - 1], now, cur, [], taken, ids, replaced)
    ensures var n := ns[|ns| - 1];
      match Resolve(cur, Stamped(n, Next(n, taken)), now)
      case Rejected(f) => EnqueueAll(db, ns, now) == NoneDone(f)
      case Enqueued(db1, id, more) => SoFar(db, ns, now, db1, [], Next(n, taken), ids + [id], replaced + more)
  {
    OneMoreRun(db, ns, now, cur, [], taken, ids, replaced);
  }

  // Later members of a failed batch do not matter.
  lemma {:induction false} StaysFailed(db: Db, ns: seq<NewRun>, k: nat, now: int)
    requires k <= |ns| && EnqueueAll(db, ns[..k], now).NoneDone?
    ensures EnqueueAll(db, ns, now) == EnqueueAll(db, ns[..k], now)
    decreases |ns|
  {
    if k == |ns| {
      assert ns[..k] == ns;
    } else {
      assert ns[..|ns| - 1][..k] == ns[..k];
      StaysFailed(db, ns[..|ns| - 1], k, now);
    }
  }

  // ---- the state of the loop -----------------------------------------------------------------

  ghost predicate Midway(db: Db, ns: seq<NewRun>, now: int, cur: Db, pending: seq<NewRun>, taken: int, ids: seq<Str>, replaced: seq<Str>) {
    && SoFar(db, ns, now, cur, pending, taken, ids, replaced)
    && UniqueInv(InsertedAll(cur, pending))
    && Apart(InsertedAll(cur, pending).runs, taken)
  }

  // What the engine hands to the store.
  predicate Prepared(n: NewRun) {
    n.policy.key == n.run.key && n.run.status.Queued?
  }

  lemma StampedFresh(n: NewRun, taken: int)
    requires Prepared(n)
    ensures Fresh(Stamped(n, Next(n, taken)), taken) && Prepared(Stamped(n, Next(n, taken)))
    ensures Immediate(Stamped(n, Next(n, taken))) == Immediate(n)
  {
  }

  lemma PlainMidway(db: Db, ns: seq<NewRun>, now: int, cur: Db, pending: seq<NewRun>, taken: int, ids: seq<Str>, replaced: seq<Str>)
    requires ns != [] && Midway(db, ns[..|ns| - 1], now, cur, pending, taken, ids, replaced)
    requires !Immediate(ns[|ns| - 1]) && Prepared(ns[|ns| - 1])
    ensures var n := ns[|ns| - 1];
      Midway(db, ns, now, cur, pending + [Stamped(n, Next(n, taken))], Next(n, taken), ids + [n.id], replaced)
  {
    var n := ns[|ns| - 1];
    var m := Stamped(n, Next(n, taken));
    StampedFresh(n, taken);
    OneMorePlain(db, ns, now, cur, pending, taken, ids, replaced);
    InsertUnique(InsertedAll(cur, pending), m);
    InsertApart(InsertedAll(cur, pending), m, taken);
    assert (pending + [m])[..|pending|] == pending;
  }

  lemma ImmediateMidway(db: Db, ns: seq<NewRun>, now: int, cur: Db, taken: int, ids: seq<Str>, replaced: seq<Str>)
    requires ns != [] && Midway(db, ns[..|ns| - 1], now, cur, [], taken, ids, replaced) && Prepared(ns[|ns| - 1])
    requires Immediate(ns[|ns| - 1])
    ensures var n := ns[|ns| - 1];
      match Resolve(cur, Stamped(n, Next(n, taken)), now)
      case Rejected(f) => EnqueueAll(db, ns, now) == NoneDone(f)
      case Enqueued(db1, id, more) => Midway(db, ns, now, db1, [], Next(n, taken), ids + [id], replaced + more)
  {
    var n := ns[|ns| - 1];
    var m := Stamped(n, Next(n, taken));
    StampedFresh(n, taken);
    OneMoreImmediate(db, ns, now, cur, taken, ids, replaced);
    if Resolve(cur, m, now).Enqueued? {
      ResolveKeeps(cur, m, now, taken);
    }
  }

  lemma Start(db: Db, cur: Db, now: int)
    requires cur == At(db, cur.next) && UniqueInv(db) && Apart(db.runs, db.next)
    ensures Midway(db, [], now, cur, [], db.next, [], [])
  {
    assert At(cur, db.next) == db;
  }

  lemma Finish(db: Db, ns: seq<NewRun>, now: int, cur: Db, pending: seq<NewRun>, taken: int, ids: seq<Str>, replaced: seq<Str>)
    requires Midway(db, ns, now, cur, pending, taken, ids, replaced) && cur.next == taken
    ensures EnqueueAll(db, ns, now) == AllDone(InsertedAll(cur, pending), ids, replaced)
  {
    InsertedAllAt(cur, pending, taken);
    assert At(cur, taken) == cur;
  }

  // ---- keyed runs are apart in every reachable state ------------------------------------------

  lemma ApartGrows(runs: map<Str, Run>, taken: int, more: int)
    requires Apart(runs, taken) && taken <= more
    ensures Apart(runs, more)
  {
  }

  lemma OutcomeApart(mid: Outcome, taken: int, next: int)
    requires mid.Enqueued? && Apart(mid.db.runs, taken) && taken <= next
    ensures Apart(OutcomeAt(mid, next).db.runs, next) && OutcomeAt(mid, next).db.next == next
  {
    ApartGrows(mid.db.runs, taken, next);
  }

  lemma EnqueueApart(db: Db, n: NewRun, now: int)
    requires UniqueInv(db) && Apart(db.runs, db.next) && Prepared(n) && EnqueueOne(db, n, now).Enqueued?
    ensures Apart(EnqueueOne(db, n, now).db.runs, EnqueueOne(db, n, now).db.next)
  {
    var next := Next(n, db.next);
    var m := Stamped(n, next);
    EnqueueAt(db, n, m, now, next);
    StampedFresh(n, db.next);
    var mid := Resolve(db, m, now);
    assert EnqueueOne(db, n, now) == OutcomeAt(mid, next) && mid.Enqueued?;
    ResolveKeeps(db, m, now, db.next);
    OutcomeApart(mid, if m.run.key != Empty then db.next + 1 else db.next, next);
  }

  lemma {:induction false} ClaimAllApart(db: Db, cands: seq<Candidate>, c: Claimer, taken: int)
    requires Apart(db.runs, taken)
    ensures Apart(ClaimAll(db, cands, c).runs, taken) && ClaimAll(db, cands, c).next == db.next
    decreases |cands|
  {
    if cands != [] {
      ClaimAllApart(db, cands[..|cands| - 1], c, taken);
      ClaimApart(ClaimAll(db, cands[..|cands| - 1], c), cands[|cands| - 1], c, taken);
    }
  }

  lemma ClaimApart(db: Db, cand: Candidate, c: Claimer, taken: int)
    requires Apart(db.runs, taken)
    ensures Apart(ClaimOne(db, cand.id, cand.resumed, c).runs, taken)
  {
    var db1 := ClaimOne(db, cand.id, cand.resumed, c);
    forall r | r in db1.runs ensures r in db.runs && db1.runs[r].key == db.runs[r].key && db1.runs[r].seqNo == db.runs[r].seqNo {
    }
  }

  // Runs that share a concurrency key are ordered by their numbers.
  lemma {:induction false} ApartAlways(ops: seq<Op>)
    requires Legal(ops)
    ensures Apart(Exec(ops).runs, Exec(ops).next)
  {
    if ops != [] {
      var front, op := ops[..|ops| - 1], ops[|ops| - 1];
      ApartAlways(front);
      if op.ClaimQueue? {
        ClaimAllApart(Exec(front), op.cands, op.c, Exec(front).next);
      } else if op.EnqueueRun? {
        UniqueAlways(front);
        if EnqueueOne(Exec(front), op.n, op.now).Enqueued? {
          EnqueueApart(Exec(front), op.n, op.now);
        }
      } else {
        OpQuiet(Exec(front), op);
        QuietApart(Exec(front), Exec(ops), Exec(front).next);
      }
    }
  }
}
