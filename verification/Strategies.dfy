// Concurrency strategies: which runs of a key an enqueue cancels, and how many
// it leaves.

module Strategies {
  import opened Collections
  import opened Names
  import opened Schema
  import opened Transitions
  import opened Enqueue
  import opened Machine
  import opened Frame
  import opened Batching

  // ---- the order of the contenders -----------------------------------------------------

  ghost predicate Sorted(runs: map<Str, Run>, s: seq<Str>) {
    && (forall x | x in s :: x in runs)
    && forall i, j | 0 <= i < j < |s| :: NoYounger(runs[s[i]], runs[s[j]])
  }

  lemma {:induction false} BySeqSorted(runs: map<Str, Run>, among: set<Str>)
    requires forall x | x in among :: x in runs
    ensures Sorted(runs, BySeq(runs, among))
    decreases |among|
  {
    if among != {} {
      var r := Oldest(runs, among);
      var rest := BySeq(runs, among - {r});
      BySeqSorted(runs, among - {r});
      forall i | 0 <= i < |rest| ensures NoYounger(runs[r], runs[rest[i]]) {
        assert rest[i] in rest;
      }
    }
  }

  lemma {:induction false} PickedSorted(runs: map<Str, Run>, cands: seq<Str>, p: Pick)
    requires Sorted(runs, cands)
    ensures Sorted(runs, Picked(runs, cands, p))
  {
    if cands != [] {
      var front, x := cands[..|cands| - 1], cands[|cands| - 1];
      assert forall y | y in front :: y in cands;
      PickedSorted(runs, front, p);
      PickedMembers(runs, front, p);
      var picked := Picked(runs, front, p);
      forall i | 0 <= i < |picked| ensures NoYounger(runs[picked[i]], runs[x]) {
        assert picked[i] in picked;
        var k :| 0 <= k < |front| && front[k] == picked[i];
        assert cands[k] == picked[i];
      }
    }
  }

  // ---- who is cancelled ------------------------------------------------------------------

  // Of the runs that match, the cancelled ones are no younger than the others.
  ghost predicate OldestGo(runs: map<Str, Run>, cands: seq<Str>, victims: seq<Str>, p: Pick)
    requires forall x | x in cands :: x in runs
  {
    forall v, x | v in victims && v in cands && x in cands && x !in victims && Picks(p, runs[v].status) && Picks(p, runs[x].status) ::
      NoYounger(runs[v], runs[x])
  }

  ghost predicate NewestGo(runs: map<Str, Run>, cands: seq<Str>, victims: seq<Str>, p: Pick)
    requires forall x | x in cands :: x in runs
  {
    forall v, x | v in victims && v in cands && x in cands && x !in victims && Picks(p, runs[v].status) && Picks(p, runs[x].status) ::
      NoYounger(runs[x], runs[v])
  }

  lemma SplitPoint(s: seq<Str>, k: nat, x: Str)
    requires k <= |s| && x in s && x !in s[..k]
    ensures x in s[k..]
  {
    assert s == s[..k] + s[k..];
  }

  lemma SortedAcross(runs: map<Str, Run>, s: seq<Str>, k: nat, v: Str, x: Str)
    requires Sorted(runs, s) && k <= |s| && v in s[..k] && x in s[k..]
    ensures NoYounger(runs[v], runs[x])
  {
    var i :| 0 <= i < k && s[..k][i] == v;
    var j :| 0 <= j < |s| - k && s[k..][j] == x;
    assert s[i] == v && s[k + j] == x;
  }

  // CancelQueuedExceptNewest keeps the newest `limit` queued runs, and every
  // run that is not queued.
  lemma KeepNewestQueued(runs: map<Str, Run>, cands: seq<Str>, limit: int)
    requires Sorted(runs, cands) && Distinct(cands) && limit > 0
    ensures var victims := Victims(runs, cands, limit, CancelQueuedExceptNewest);
      && (forall v | v in victims :: v in cands && runs[v].status.Queued?)
      && OldestGo(runs, cands, victims, IfQueued)
      && |victims| == (if |cands| <= limit || |Picked(runs, cands, IfQueued)| <= limit then 0 else |Picked(runs, cands, IfQueued)| - limit)
  {
    var queued := Picked(runs, cands, IfQueued);
    PickedMembers(runs, cands, IfQueued);
    PickedSorted(runs, cands, IfQueued);
    var victims := Victims(runs, cands, limit, CancelQueuedExceptNewest);
    if |cands| > limit && |queued| > limit {
      var k := |queued| - limit;
      forall v, x | v in victims && v in cands && x in cands && x !in victims && runs[v].status.Queued? && runs[x].status.Queued?
        ensures NoYounger(runs[v], runs[x])
      {
        assert x in queued;
        SplitPoint(queued, k, x);
        SortedAcross(runs, queued, k, v, x);
      }
    }
  }

  // CancelQueuedExceptOldest keeps the oldest `limit` queued runs, and every run
  // that is not queued.
  lemma KeepOldestQueued(runs: map<Str, Run>, cands: seq<Str>, limit: int)
    requires Sorted(runs, cands) && Distinct(cands) && limit > 0
    ensures var victims := Victims(runs, cands, limit, CancelQueuedExceptOldest);
      && (forall v | v in victims :: v in cands && runs[v].status.Queued?)
      && NewestGo(runs, cands, victims, IfQueued)
      && |victims| == (if |cands| <= limit || |Picked(runs, cands, IfQueued)| <= limit then 0 else |Picked(runs, cands, IfQueued)| - limit)
  {
    var queued := Picked(runs, cands, IfQueued);
    PickedMembers(runs, cands, IfQueued);
    PickedSorted(runs, cands, IfQueued);
    var victims := Victims(runs, cands, limit, CancelQueuedExceptOldest);
    if |cands| > limit && |queued| > limit {
      forall v, x | v in victims && v in cands && x in cands && x !in victims && runs[v].status.Queued? && runs[x].status.Queued?
        ensures NoYounger(runs[x], runs[v])
      {
        assert x in queued[..limit] by {
          if x !in queued[..limit] {
            SplitPoint(queued, limit, x);
          }
        }
        SortedAcross(runs, queued, limit, x, v);
      }
    }
  }

  lemma OnlyRunningGo(runs: map<Str, Run>, cands: seq<Str>, k: nat)
    requires Sorted(runs, cands) && k <= |Picked(runs, cands, IfRunning)|
    ensures OldestGo(runs, cands, Picked(runs, cands, IfRunning)[..k], IfRunning)
    ensures forall v | v in Picked(runs, cands, IfRunning)[..k] :: v in cands && runs[v].status.Running?
  {
    var running := Picked(runs, cands, IfRunning);
    PickedMembers(runs, cands, IfRunning);
    PickedSorted(runs, cands, IfRunning);
    forall v, x | v in running[..k] && v in cands && x in cands && x !in running[..k] && runs[v].status.Running? && runs[x].status.Running?
      ensures NoYounger(runs[v], runs[x])
    {
      SplitPoint(running, k, x);
      SortedAcross(runs, running, k, v, x);
    }
  }

  lemma AllRunningGo(runs: map<Str, Run>, cands: seq<Str>, m: nat)
    requires Sorted(runs, cands) && m <= |Picked(runs, cands, UnlessRunning)|
    ensures var victims := Picked(runs, cands, IfRunning) + Picked(runs, cands, UnlessRunning)[..m];
      && OldestGo(runs, cands, victims, UnlessRunning)
      && forall x | x in cands && runs[x].status.Running? :: x in victims
  {
    var running, others := Picked(runs, cands, IfRunning), Picked(runs, cands, UnlessRunning);
    PickedMembers(runs, cands, IfRunning);
    PickedMembers(runs, cands, UnlessRunning);
    PickedSorted(runs, cands, UnlessRunning);
    var victims := running + others[..m];
    forall v, x | v in victims && v in cands && x in cands && x !in victims && !runs[v].status.Running? && !runs[x].status.Running?
      ensures NoYounger(runs[v], runs[x])
    {
      assert v in others[..m];
      SplitPoint(others, m, x);
      SortedAcross(runs, others, m, v, x);
    }
  }

  // CancelInProgress cancels down to the limit: RUNNING runs first, and the
  // oldest of each kind.
  lemma RunningGoFirst(runs: map<Str, Run>, cands: seq<Str>, limit: int)
    requires Sorted(runs, cands) && limit > 0
    ensures var victims := Victims(runs, cands, limit, CancelInProgress);
      && |victims| == (if |cands| <= limit then 0 else |cands| - limit)
      && OldestGo(runs, cands, victims, IfRunning)
      && OldestGo(runs, cands, victims, UnlessRunning)
      && ((exists v :: v in victims && v in cands && !runs[v].status.Running?) ==>
          forall x | x in cands && runs[x].status.Running? :: x in victims)
  {
    var running, others := Picked(runs, cands, IfRunning), Picked(runs, cands, UnlessRunning);
    PickedSplit(runs, cands);
    if |cands| > limit {
      var k := |cands| - limit;
      if k <= |running| {
        assert (running + others)[..k] == running[..k];
        OnlyRunningGo(runs, cands, k);
      } else {
        assert (running + others)[..k] == running + others[..k - |running|];
        AllRunningGo(runs, cands, k - |running|);
      }
    }
  }

  // ---- how many are left -------------------------------------------------------------------

  function Members(s: seq<Str>): set<Str> {
    set x | x in s
  }

  lemma {:induction false} MembersSize(s: seq<Str>)
    requires Distinct(s)
    ensures |Members(s)| == |s|
  {
    if s != [] {
      var front, x := s[..|s| - 1], s[|s| - 1];
      assert s == front + [x];
      MembersSize(front);
      assert x !in Members(front) by {
        forall i | 0 <= i < |front| ensures front[i] != x {
          assert s[i] != s[|s| - 1];
        }
      }
      assert Members(s) == Members(front) + {x};
    }
  }

  // Cancelling takes exactly the victims out of the live runs.
  lemma {:induction false} CancelAllContenders(db: Db, victims: seq<Str>, key: Str, now: int)
    requires forall v | v in victims :: v in Contenders(db, key)
    ensures Contenders(CancelAll(db, victims, now), key) == Contenders(db, key) - Members(victims)
    ensures forall r | r in Contenders(db, key) && r !in victims ::
      r in CancelAll(db, victims, now).runs && CancelAll(db, victims, now).runs[r] == db.runs[r]
  {
    if victims != [] {
      var front, v := victims[..|victims| - 1], victims[|victims| - 1];
      assert victims == front + [v];
      CancelAllContenders(db, front, key, now);
      var mid := CancelAll(db, front, now);
      CancelOneContender(mid, v, key, now);
      assert Members(victims) == Members(front) + {v};
    }
  }

  lemma CancelOneContender(db: Db, v: Str, key: Str, now: int)
    ensures Contenders(CancelOrDelete(db, v, now), key) == Contenders(db, key) - {v}
    ensures forall r | r in db.runs && r != v :: r in CancelOrDelete(db, v, now).runs && CancelOrDelete(db, v, now).runs[r] == db.runs[r]
  {
  }

  // What an enqueue with a strategy does to the live runs of its key.
  lemma StrategyLeaves(db: Db, n: NewRun, now: int)
    requires UsesStrategy(n)
    ensures var cands, db1 := BySeq(db.runs, Contenders(db, n.run.key)), CancelAll(db, StrategyVictims(db, n), now);
      && Contenders(db1, n.run.key) == Contenders(db, n.run.key) - Members(StrategyVictims(db, n))
      && |Contenders(db1, n.run.key)| == |Contenders(db, n.run.key)| - |StrategyVictims(db, n)|
  {
    var cands := BySeq(db.runs, Contenders(db, n.run.key));
    var victims := StrategyVictims(db, n);
    VictimsDistinct(db.runs, cands, n.policy.limit, n.policy.strategy);
    forall v | v in victims ensures v in Contenders(db, n.run.key) {
      assert v in cands;
    }
    CancelAllContenders(db, victims, n.run.key, now);
    MembersSize(victims);
    assert Members(victims) <= Contenders(db, n.run.key);
  }

  // The live runs of a key that have not been claimed yet.
  function Waiting(db: Db, key: Str): set<Str> {
    set r | r in Contenders(db, key) && db.runs[r].status.Queued?
  }

  lemma QueuedVictims(db: Db, n: NewRun)
    requires UsesStrategy(n) && (n.policy.strategy.CancelQueuedExceptNewest? || n.policy.strategy.CancelQueuedExceptOldest?)
    ensures var cands, queued := |Contenders(db, n.run.key)|, |Waiting(db, n.run.key)|;
      && Members(StrategyVictims(db, n)) <= Waiting(db, n.run.key)
      && |Members(StrategyVictims(db, n))| == if cands <= n.policy.limit || queued <= n.policy.limit then 0 else queued - n.policy.limit
  {
    var cands := BySeq(db.runs, Contenders(db, n.run.key));
    BySeqSorted(db.runs, Contenders(db, n.run.key));
    PickedMembers(db.runs, cands, IfQueued);
    MembersSize(Picked(db.runs, cands, IfQueued));
    assert Members(Picked(db.runs, cands, IfQueued)) == Waiting(db, n.run.key);
    VictimsDistinct(db.runs, cands, n.policy.limit, n.policy.strategy);
    MembersSize(StrategyVictims(db, n));
    if n.policy.strategy.CancelQueuedExceptNewest? {
      KeepNewestQueued(db.runs, cands, n.policy.limit);
    } else {
      KeepOldestQueued(db.runs, cands, n.policy.limit);
    }
  }

  lemma QueuedLeft(db: Db, n: NewRun, now: int)
    requires UsesStrategy(n) && (n.policy.strategy.CancelQueuedExceptNewest? || n.policy.strategy.CancelQueuedExceptOldest?)
    ensures |Waiting(CancelAll(db, StrategyVictims(db, n), now), n.run.key)| <= n.policy.limit
  {
    var victims := StrategyVictims(db, n);
    var db1 := CancelAll(db, victims, now);
    QueuedVictims(db, n);
    StrategyLeaves(db, n, now);
    VictimsAreContenders(db, n);
    CancelAllContenders(db, victims, n.run.key, now);
    assert Waiting(db1, n.run.key) == Waiting(db, n.run.key) - Members(victims);
    SubsetSize(Waiting(db, n.run.key), Contenders(db, n.run.key));
  }

  lemma VictimsAreContenders(db: Db, n: NewRun)
    ensures forall v | v in StrategyVictims(db, n) :: v in Contenders(db, n.run.key)
  {
    if UsesStrategy(n) {
      var cands := BySeq(db.runs, Contenders(db, n.run.key));
      VictimsDistinct(db.runs, cands, n.policy.limit, n.policy.strategy);
      forall v | v in StrategyVictims(db, n) ensures v in Contenders(db, n.run.key) {
        assert v in cands;
      }
    }
  }

  lemma InProgressLeft(db: Db, n: NewRun, now: int)
    requires UsesStrategy(n) && n.policy.strategy.CancelInProgress?
    ensures |Contenders(CancelAll(db, StrategyVictims(db, n), now), n.run.key)| <= n.policy.limit
  {
    var cands := BySeq(db.runs, Contenders(db, n.run.key));
    BySeqSorted(db.runs, Contenders(db, n.run.key));
    RunningGoFirst(db.runs, cands, n.policy.limit);
    StrategyLeaves(db, n, now);
  }

  lemma NewestLeft(db: Db, n: NewRun, now: int)
    requires UsesStrategy(n) && n.policy.strategy.CancelNewest?
    ensures |Contenders(CancelAll(db, StrategyVictims(db, n), now), n.run.key)| ==
      var k := |Contenders(db, n.run.key)|; if k <= n.policy.limit then k else k - 1
  {
    StrategyLeaves(db, n, now);
  }

  lemma InsertAddsOne(a: Db, m: NewRun)
    requires m.id !in a.runs && !IsTerminal(m.run.status)
    ensures Contenders(Inserted(a, m), m.run.key) == Contenders(a, m.run.key) + {m.id}
  {
  }

  // An insert adds one live run to its key, and a replacement may remove one.
  lemma InsertedContenders(db0: Db, m: NewRun, now: int, a: Db)
    requires Prepares(db0, a, now) && m.id !in db0.runs && !IsTerminal(m.run.status)
    ensures |Contenders(Inserted(a, m), m.run.key)| <= |Contenders(db0, m.run.key)| + 1
  {
    PrepareSteady(db0, a, now);
    InsertAddsOne(a, m);
    forall r | r in Contenders(a, m.run.key) ensures r in Contenders(db0, m.run.key) {
      assert RunFrame(db0.runs[r], a.runs[r]);
    }
    SubsetSize(Contenders(a, m.run.key), Contenders(db0, m.run.key));
  }

  // How many live runs of the key an enqueue leaves.
  ghost predicate Respected(db: Db, n: NewRun, db1: Db) {
    match n.policy.strategy
    case Hold => true
    case CancelInProgress => |Contenders(db1, n.run.key)| <= n.policy.limit
    case CancelNewest => |Contenders(db, n.run.key)| <= n.policy.limit ==> |Contenders(db1, n.run.key)| <= n.policy.limit
    case CancelQueuedExceptNewest => |Waiting(db1, n.run.key)| <= n.policy.limit
    case CancelQueuedExceptOldest => |Waiting(db1, n.run.key)| <= n.policy.limit
  }

  lemma PartsRespected(db0: Db, m: NewRun, now: int, out: Outcome, a: Db, inserted: bool)
    requires UsesStrategy(m) && Enqueues(db0, m, now, out, a, inserted) && inserted
    requires m.id !in db0.runs && !IsTerminal(m.run.status)
    ensures Respected(db0, m, out.db)
  {
    var mid := Inserted(a, m);
    match m.policy.strategy
    case CancelInProgress => InProgressLeft(mid, m, now);
    case CancelNewest =>
      InsertedContenders(db0, m, now, a);
      NewestLeft(mid, m, now);
    case _ => QueuedLeft(mid, m, now);
  }

  // Every enqueue that inserts its run respects the limit of its strategy.
  lemma StrategyRespected(db: Db, n: NewRun, now: int)
    requires UsesStrategy(n) && n.id !in db.runs && n.run.status.Queued?
    requires EnqueueOne(db, n, now).Enqueued? && EnqueueOne(db, n, now).id == n.id
    ensures Respected(db, n, EnqueueOne(db, n, now).db)
  {
    var a, inserted := EnqueueParts(db, n, now);
    PartsRespected(Numbered(db, n), Stamped(n, db.next + 1), now, EnqueueOne(db, n, now), a, inserted);
    assert Contenders(Numbered(db, n), n.run.key) == Contenders(db, n.run.key);
  }

  // ---- cancel-newest cancels the incoming run ---------------------------------------------------

  lemma {:induction false} LastIsNewest(runs: map<Str, Run>, among: set<Str>, x: Str)
    requires (forall r | r in among :: r in runs) && x in among
    requires forall r | r in among && r != x :: runs[r].seqNo < runs[x].seqNo
    ensures var s := BySeq(runs, among); |s| == |among| && s != [] && s[|s| - 1] == x
  {
    var s := BySeq(runs, among);
    BySeqSorted(runs, among);
    assert x in s;
    forall k | 0 <= k < |s| - 1 ensures s[k] != x {
      assert s[|s| - 1] in s && s[k] != s[|s| - 1];
      assert NoYounger(runs[s[k]], runs[s[|s| - 1]]);
    }
  }

  lemma NewestVictim(a: Db, m: NewRun)
    requires UsesStrategy(m) && m.policy.strategy.CancelNewest? && m.id !in a.runs && !IsTerminal(m.run.status)
    requires forall r | r in Contenders(a, m.run.key) :: a.runs[r].seqNo < m.run.seqNo
    ensures StrategyVictims(Inserted(a, m), m) == if |Contenders(a, m.run.key)| < m.policy.limit then [] else [m.id]
  {
    var mid := Inserted(a, m);
    InsertAddsOne(a, m);
    assert |Contenders(mid, m.run.key)| == |Contenders(a, m.run.key)| + 1;
    LastIsNewest(mid.runs, Contenders(mid, m.run.key), m.id);
  }

  lemma NewestLeaves(a: Db, m: NewRun, mid: Db, victims: seq<Str>, now: int)
    requires mid == Inserted(a, m) && m.id !in a.runs && !IsTerminal(m.run.status) && (victims == [] || victims == [m.id])
    ensures var db1, key := CancelAll(mid, victims, now), m.run.key;
      && Contenders(db1, key) == Contenders(a, key) + (if victims == [] then {m.id} else {})
      && forall r | r in Contenders(a, key) :: r in db1.runs && db1.runs[r] == a.runs[r]
  {
    InsertAddsOne(a, m);
    if victims != [] {
      assert [m.id][..0] == [];
      assert CancelAll(mid, victims, now) == CancelOrDelete(mid, m.id, now);
      CancelOneContender(mid, m.id, m.run.key, now);
    }
  }

  // A replaced run leaves the contenders, and the others keep their rows.
  lemma ReplacedContenders(db: Db, existing: Str, key: Str, now: int)
    requires existing in db.runs
    ensures Contenders(CancelRow(db, existing, true, now), key) == Contenders(db, key) - {existing}
    ensures forall r | r in db.runs && r != existing ::
      r in CancelRow(db, existing, true, now).runs && CancelRow(db, existing, true, now).runs[r] == db.runs[r]
    ensures CancelRow(db, existing, true, now).runs.Keys == db.runs.Keys
  {
  }

  // Runs replaced by the incoming one, and what the strategy cancels of the rest.
  ghost predicate NewestCancelled(db: Db, n: NewRun, db1: Db, replaced: seq<Str>) {
    var prior := Contenders(db, n.run.key) - Members(replaced);
    && Contenders(db1, n.run.key) == prior + (if |prior| < n.policy.limit then {n.id} else {})
    && (n.id in replaced <==> |prior| >= n.policy.limit)
    && forall r | r in prior :: r in db1.runs && db1.runs[r] == db.runs[r]
  }

  lemma InsertedNewest(db: Db, a: Db, n: NewRun, m: NewRun, first: seq<Str>, victims: seq<Str>, db1: Db, now: int)
    requires UsesStrategy(m) && m.policy.strategy.CancelNewest? && m.id !in db.runs && m.id !in a.runs && !IsTerminal(m.run.status)
    requires m.run.key == n.run.key && m.id == n.id && m.policy == n.policy && m.id !in first
    requires Contenders(a, m.run.key) == Contenders(db, m.run.key) - Members(first)
    requires forall r | r in Contenders(a, m.run.key) :: r in db.runs && a.runs[r] == db.runs[r] && a.runs[r].seqNo < m.run.seqNo
    requires victims == StrategyVictims(Inserted(a, m), m) && db1 == CancelAll(Inserted(a, m), victims, now)
    ensures NewestCancelled(db, n, db1, first + victims)
  {
    NewestVictim(a, m);
    NewestLeaves(a, m, Inserted(a, m), victims, now);
    PriorIs(Contenders(db, n.run.key), Contenders(a, m.run.key), first, victims, n.id);
  }

  lemma PriorIs(before: set<Str>, after: set<Str>, first: seq<Str>, victims: seq<Str>, id: Str)
    requires after == before - Members(first) && id !in before && id !in first && (victims == [] || victims == [id])
    ensures before - Members(first + victims) == after && (id in first + victims <==> victims != [])
  {
  }

  lemma StampedNewest(db: Db, n: NewRun)
    requires UsesStrategy(n) && n.policy.key == n.run.key && forall r | r in Contenders(db, n.run.key) :: db.runs[r].seqNo <= db.next
    ensures var d, m := Numbered(db, n), Stamped(n, db.next + 1);
      && d.runs == db.runs
      && m.id == n.id && m.policy == n.policy && m.run.key == n.run.key
      && m.run.status == n.run.status && m.run.seqNo == db.next + 1
      && forall r | r in Contenders(db, n.run.key) :: db.runs[r].seqNo < m.run.seqNo
  {
  }

  // One insert, into a database the incoming run's predecessors were taken out of.
  lemma OneNewest(db: Db, a: Db, n: NewRun, m: NewRun, first: seq<Str>, now: int, out: Outcome)
    requires UsesStrategy(m) && m.policy.strategy.CancelNewest? && m.id !in db.runs && m.id !in a.runs && !IsTerminal(m.run.status)
    requires m.run.key == n.run.key && m.id == n.id && m.policy == n.policy && m.id !in first
    requires Contenders(a, m.run.key) == Contenders(db, m.run.key) - Members(first)
    requires forall r | r in Contenders(a, m.run.key) :: r in db.runs && a.runs[r] == db.runs[r] && a.runs[r].seqNo < m.run.seqNo
    requires out == InsertOne(a, m, first, now) && out.Enqueued?
    ensures NewestCancelled(db, n, out.db, out.replaced)
  {
    var victims := StrategyVictims(Inserted(a, m), m);
    assert out.db == CancelAll(Inserted(a, m), victims, now) && out.replaced == first + victims;
    InsertedNewest(db, a, n, m, first, victims, out.db, now);
  }

  lemma ResolvedNewest(db: Db, d: Db, n: NewRun, m: NewRun, now: int, out: Outcome)
    requires UsesStrategy(m) && m.policy.strategy.CancelNewest? && m.id !in db.runs && !IsTerminal(m.run.status) && d.runs == db.runs
    requires m.run.key == n.run.key && m.id == n.id && m.policy == n.policy
    requires forall r | r in Contenders(db, n.run.key) :: db.runs[r].seqNo < m.run.seqNo
    requires out == Resolve(d, m, now) && out.Enqueued? && out.id == m.id
    ensures NewestCancelled(db, n, out.db, out.replaced)
  {
    assert Contenders(d, m.run.key) == Contenders(db, m.run.key);
    var holders := UniqueHolders(d, m.run.workflow, m.run.uniqueKey);
    if m.run.uniqueKey != Empty && holders != {} {
      var existing := Holder(holders);
      ReplacedContenders(d, existing, m.run.key, now);
      assert Members([existing]) == {existing};
      OneNewest(db, CancelRow(d, existing, true, now), n, m, [existing], now, out);
    } else {
      assert Members([]) == {};
      OneNewest(db, d, n, m, [], now, out);
    }
  }

  lemma EnqueueResolves(db: Db, n: NewRun, now: int)
    ensures EnqueueOne(db, n, now) == Resolve(Numbered(db, n), Stamped(n, db.next + 1), now)
  {
  }

  // In every reachable database: under cancel-newest an incoming run that finds the
  // limit reached is the one cancelled, and no other is.
  lemma NewestIsIncoming(ops: seq<Op>, n: NewRun, now: int, out: Outcome)
    requires Legal(ops) && WellFormed(n) && n.id !in Exec(ops).runs && UsesStrategy(n) && n.policy.strategy.CancelNewest?
    requires out == EnqueueOne(Exec(ops), n, now) && out.Enqueued? && out.id == n.id
    ensures NewestCancelled(Exec(ops), n, out.db, out.replaced)
  {
    var db := Exec(ops);
    ApartAlways(ops);
    StampedNewest(db, n);
    EnqueueResolves(db, n, now);
    ResolvedNewest(db, Numbered(db, n), n, Stamped(n, db.next + 1), now, out);
  }
}
