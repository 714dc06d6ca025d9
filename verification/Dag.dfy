// Validation of a workflow's steps: Kahn's algorithm accepts exactly the
// well-named, closed and acyclic step lists.

module Dag {
  import opened Collections
  import opened Names

  datatype StepReq = StepReq(name: Str, deps: seq<Str>)

  datatype Verdict =
    | Accepted
    | Unnamed
    | Duplicate(name: Str)
    | Unknown(step: Str, dep: Str)
    | HasCycle

  // The dependencies of each step, by name.
  type Graph = map<Str, seq<Str>>

  function GraphOf(steps: seq<StepReq>): Graph {
    if steps == [] then map[]
    else GraphOf(steps[..|steps| - 1])[steps[|steps| - 1].name := steps[|steps| - 1].deps]
  }

  predicate DistinctNames(steps: seq<StepReq>) {
    forall i, j | 0 <= i < j < |steps| :: steps[i].name != steps[j].name
  }

  // ---- the reference definition ---------------------------------------------

  predicate Closed(g: Graph) {
    forall n | n in g :: forall d | d in g[n] :: d in g
  }

  // Step b depends on step a.
  predicate Edge(g: Graph, a: Str, b: Str) {
    b in g && a in g[b]
  }

  ghost predicate Walk(g: Graph, p: seq<Str>) {
    && (forall i | 0 <= i < |p| :: p[i] in g)
    && (forall i, j | 0 <= i < j < |p| && j == i + 1 :: Edge(g, p[i], p[j]))
  }

  ghost predicate Cycle(g: Graph, p: seq<Str>) {
    |p| > 1 && Walk(g, p) && p[0] == p[|p| - 1]
  }

  ghost predicate Acyclic(g: Graph) {
    forall p :: !Cycle(g, p)
  }

  ghost predicate Valid(steps: seq<StepReq>) {
    && (forall s | s in steps :: s.name != Empty)
    && DistinctNames(steps)
    && Closed(GraphOf(steps))
    && Acyclic(GraphOf(steps))
  }

  // ---- ranks ----------------------------------------------------------------------

  // Every step ranks above its dependencies.
  ghost predicate Ranks(g: Graph, rank: map<Str, nat>) {
    forall n | n in g :: n in rank && forall d | d in g[n] :: d in rank && rank[d] < rank[n]
  }

  lemma {:induction false} RankGrows(g: Graph, rank: map<Str, nat>, p: seq<Str>)
    requires Ranks(g, rank) && Walk(g, p) && |p| > 1
    ensures rank[p[0]] < rank[p[|p| - 1]]
  {
    assert Edge(g, p[|p| - 2], p[|p| - 1]);
    if |p| > 2 {
      RankGrows(g, rank, p[..|p| - 1]);
    }
  }

  lemma RankedIsAcyclic(g: Graph, rank: map<Str, nat>)
    requires Ranks(g, rank)
    ensures Acyclic(g)
  {
    forall p ensures !Cycle(g, p) {
      if Cycle(g, p) {
        RankGrows(g, rank, p);
      }
    }
  }

  function Elements(p: seq<Str>): set<Str> {
    set x | x in p
  }

  lemma {:induction false} DistinctSize(p: seq<Str>, u: set<Str>)
    requires forall i, j | 0 <= i < j < |p| :: p[i] != p[j]
    requires forall i | 0 <= i < |p| :: p[i] in u
    ensures |p| <= |u|
  {
    if p != [] {
      DistinctSize(p[1..], u - {p[0]});
    }
  }

  ghost predicate DependsInside(g: Graph, u: set<Str>, n: Str) {
    exists d :: d in u && Edge(g, d, n)
  }

  // Every step of u has a dependency inside u.
  ghost predicate Trapped(g: Graph, u: set<Str>) {
    u <= g.Keys && forall n {:trigger DependsInside(g, u, n)} | n in u :: DependsInside(g, u, n)
  }

  lemma WalkPrepend(g: Graph, d: Str, p: seq<Str>)
    requires p != [] && Walk(g, p) && Edge(g, d, p[0]) && d in g
    ensures Walk(g, [d] + p)
  {
    var q := [d] + p;
    forall i, j | 0 <= i < j < |q| && j == i + 1 ensures Edge(g, q[i], q[j]) {
      assert i > 0 ==> Edge(g, p[i - 1], p[j - 1]);
    }
  }

  // Walking backwards in a trapped set repeats a step.
  lemma {:induction false} Backwards(g: Graph, u: set<Str>, p: seq<Str>) returns (c: seq<Str>)
    requires Trapped(g, u)
    requires p != [] && Walk(g, p)
    requires Elements(p) <= u
    requires forall i, j | 0 <= i < j < |p| :: p[i] != p[j]
    ensures Cycle(g, c)
    decreases |u| - |p|
  {
    assert p[0] in Elements(p);
    assert DependsInside(g, u, p[0]);
    var d :| d in u && Edge(g, d, p[0]);
    var q := [d] + p;
    WalkPrepend(g, d, p);
    if d in p {
      var k :| 0 <= k < |p| && p[k] == d;
      c := q[..k + 2];
    } else {
      DistinctSize(q, u);
      c := Backwards(g, u, q);
    }
  }

  lemma TrappedIsCyclic(g: Graph, u: set<Str>)
    requires Trapped(g, u) && u != {}
    ensures !Acyclic(g)
  {
    var n :| n in u;
    var c := Backwards(g, u, [n]);
  }

  // ---- Kahn's algorithm -----------------------------------------------------------

  // How many entries of `deps` are still to be visited.
  function Pending(deps: seq<Str>, visited: set<Str>): nat {
    if deps == [] then 0
    else Pending(deps[..|deps| - 1], visited) + if deps[|deps| - 1] in visited then 0 else 1
  }

  lemma {:induction false} PendingNone(deps: seq<Str>)
    ensures Pending(deps, {}) == |deps|
  {
    if deps != [] { PendingNone(deps[..|deps| - 1]); }
  }

  lemma {:induction false} PendingZero(deps: seq<Str>, visited: set<Str>)
    ensures Pending(deps, visited) == 0 <==> forall d | d in deps :: d in visited
  {
    if deps != [] {
      assert deps == deps[..|deps| - 1] + [deps[|deps| - 1]];
      PendingZero(deps[..|deps| - 1], visited);
    }
  }

  lemma {:induction false} PendingVisit(deps: seq<Str>, visited: set<Str>, n: Str)
    requires n !in visited
    ensures Pending(deps, visited) == Pending(deps, visited + {n}) + multiset(deps)[n]
  {
    if deps != [] {
      assert deps == deps[..|deps| - 1] + [deps[|deps| - 1]];
      PendingVisit(deps[..|deps| - 1], visited, n);
    }
  }

  lemma {:induction false} GraphKeys(steps: seq<StepReq>)
    ensures forall i | 0 <= i < |steps| :: steps[i].name in GraphOf(steps)
    ensures forall n | n in GraphOf(steps) :: exists i :: 0 <= i < |steps| && steps[i].name == n && GraphOf(steps)[n] == steps[i].deps
  {
    if steps != [] {
      GraphKeys(steps[..|steps| - 1]);
    }
  }

  lemma GraphDeps(steps: seq<StepReq>, i: nat)
    requires DistinctNames(steps) && i < |steps|
    ensures steps[i].name in GraphOf(steps) && GraphOf(steps)[steps[i].name] == steps[i].deps
  {
    GraphKeys(steps);
  }

  lemma {:induction false} GraphSize(steps: seq<StepReq>)
    requires DistinctNames(steps)
    ensures |GraphOf(steps)| == |steps|
  {
    if steps != [] {
      GraphKeys(steps[..|steps| - 1]);
      GraphSize(steps[..|steps| - 1]);
    }
  }

  predicate Named(steps: seq<StepReq>) {
    forall i | 0 <= i < |steps| :: steps[i].name != Empty
  }

  method CheckNames(steps: seq<StepReq>) returns (v: Verdict, names: set<Str>)
    ensures v.Accepted? <==> Named(steps) && DistinctNames(steps)
    ensures v.Accepted? ==> names == GraphOf(steps).Keys
    ensures v.Unnamed? ==> !Named(steps)
    ensures v.Duplicate? ==> exists i, j :: 0 <= i < j < |steps| && steps[i].name == steps[j].name == v.name
    ensures v.Accepted? || v.Unnamed? || v.Duplicate?
  {
    names := {};
    for i := 0 to |steps|
      invariant names == GraphOf(steps[..i]).Keys
      invariant forall k | 0 <= k < i :: steps[k].name != Empty
      invariant forall j, k | 0 <= j < k < i :: steps[j].name != steps[k].name
    {
      GraphKeys(steps[..i]);
      GraphPush(steps, i);
      if steps[i].name == Empty {
        return Unnamed, names;
      }
      if steps[i].name in names {
        return Duplicate(steps[i].name), names;
      }
      names := names + {steps[i].name};
    }
    assert steps[..|steps|] == steps;
    v := Accepted;
  }

  function Dependents(adj: map<Str, seq<Str>>, n: Str): seq<Str> {
    if n in adj then adj[n] else []
  }

  // How often step n lists a among its dependencies.
  function Count(g: Graph, n: Str, a: Str): nat {
    if n in g then multiset(g[n])[a] else 0
  }

  function Tally(adj: map<Str, seq<Str>>, a: Str, n: Str): nat {
    multiset(Dependents(adj, a))[n]
  }

  // adj is g with its edges turned round.
  ghost predicate Reverses(adj: map<Str, seq<Str>>, g: Graph) {
    forall a, n :: Tally(adj, a, n) == Count(g, n, a)
  }

  lemma GraphPush(steps: seq<StepReq>, i: nat)
    requires i < |steps|
    ensures GraphOf(steps[..i + 1]) == GraphOf(steps[..i])[steps[i].name := steps[i].deps]
  {
    assert steps[..i + 1][..i] == steps[..i];
  }

  // The reversed edges of one step; stops at an unknown dependency.
  method IndexDeps(s: StepReq, names: set<Str>, adj0: map<Str, seq<Str>>, ghost before: Graph)
    returns (bad: int, adj: map<Str, seq<Str>>)
    requires s.name !in before && Reverses(adj0, before)
    ensures -1 <= bad < |s.deps|
    ensures bad == -1 <==> KnownDeps(s, names)
    ensures bad >= 0 ==> s.deps[bad] !in names
    ensures bad == -1 ==> Reverses(adj, before[s.name := s.deps])
  {
    adj := adj0;
    assert s.deps[..0] == [];
    for k := 0 to |s.deps|
      invariant Reverses(adj, before[s.name := s.deps[..k]])
      invariant forall j | 0 <= j < k :: s.deps[j] in names
    {
      var dep := s.deps[k];
      if dep !in names {
        return k, adj;
      }
      AppendEdge(adj, before, s.name, s.deps, k);
      adj := adj[dep := Dependents(adj, dep) + [s.name]];
    }
    assert s.deps[..|s.deps|] == s.deps;
    bad := -1;
  }

  function Degrees(g: Graph): map<Str, int> {
    map n | n in g :: |g[n]|
  }

  predicate KnownDeps(s: StepReq, names: set<Str>) {
    forall d | d in s.deps :: d in names
  }

  lemma ClosedBySteps(steps: seq<StepReq>)
    requires DistinctNames(steps)
    ensures Closed(GraphOf(steps)) <==> forall j | 0 <= j < |steps| :: KnownDeps(steps[j], GraphOf(steps).Keys)
  {
    GraphKeys(steps);
    forall j | 0 <= j < |steps| ensures GraphOf(steps)[steps[j].name] == steps[j].deps {
      GraphDeps(steps, j);
    }
  }

  lemma GraphFresh(steps: seq<StepReq>, i: nat)
    requires DistinctNames(steps) && i < |steps|
    ensures steps[i].name !in GraphOf(steps[..i])
  {
    GraphKeys(steps[..i]);
  }

  method Index(steps: seq<StepReq>, names: set<Str>)
    returns (v: Verdict, indeg: map<Str, int>, adj: map<Str, seq<Str>>)
    requires DistinctNames(steps) && names == GraphOf(steps).Keys
    ensures v.Accepted? <==> Closed(GraphOf(steps))
    ensures v.Accepted? || v.Unknown?
    ensures v.Unknown? ==> v.step in GraphOf(steps) && v.dep in GraphOf(steps)[v.step] && v.dep !in GraphOf(steps)
    ensures v.Accepted? ==> indeg == Degrees(GraphOf(steps))
    ensures v.Accepted? ==> Reverses(adj, GraphOf(steps))
  {
    indeg, adj := map[], map[];
    for i := 0 to |steps|
      invariant indeg == Degrees(GraphOf(steps[..i]))
      invariant Reverses(adj, GraphOf(steps[..i]))
      invariant forall j | 0 <= j < i :: KnownDeps(steps[j], names)
    {
      GraphFresh(steps, i);
      GraphPush(steps, i);
      var bad;
      bad, adj := IndexDeps(steps[i], names, adj, GraphOf(steps[..i]));
      if bad >= 0 {
        GraphDeps(steps, i);
        ClosedBySteps(steps);
        return Unknown(steps[i].name, steps[i].deps[bad]), indeg, adj;
      }
      indeg := indeg[steps[i].name := |steps[i].deps|];
    }
    assert steps[..|steps|] == steps;
    ClosedBySteps(steps);
    v := Accepted;
  }

  lemma AppendEdge(adj: map<Str, seq<Str>>, before: Graph, n: Str, deps: seq<Str>, k: nat)
    requires k < |deps|
    requires Reverses(adj, before[n := deps[..k]])
    ensures Reverses(adj[deps[k] := Dependents(adj, deps[k]) + [n]], before[n := deps[..k + 1]])
  {
    var h, adj' := before[n := deps[..k + 1]], adj[deps[k] := Dependents(adj, deps[k]) + [n]];
    forall a, m ensures Tally(adj', a, m) == Count(h, m, a) {
      assert Tally(adj, a, m) == Count(before[n := deps[..k]], m, a);
      AppendedTally(adj, before, n, deps, k, a, m);
    }
  }

  lemma AppendedTally(adj: map<Str, seq<Str>>, before: Graph, n: Str, deps: seq<Str>, k: nat, a: Str, m: Str)
    requires k < |deps| && Tally(adj, a, m) == Count(before[n := deps[..k]], m, a)
    ensures Tally(adj[deps[k] := Dependents(adj, deps[k]) + [n]], a, m) == Count(before[n := deps[..k + 1]], m, a)
  {
    MultisetStep(deps, k);
    Appended(Dependents(adj, deps[k]), n);
  }

  lemma Appended(s: seq<Str>, x: Str)
    ensures multiset(s + [x]) == multiset(s) + multiset{x}
  {
  }

  // ---- the visiting loop -------------------------------------------------------------

  // Steps with no dependency left are exactly those visited or queued.
  ghost predicate QueueInv(g: Graph, indeg: map<Str, int>, queue: seq<Str>, visited: set<Str>) {
    && indeg.Keys == g.Keys
    && visited <= g.Keys
    && Distinct(queue)
    && (forall n | n in queue :: n in g && n !in visited)
    && (forall n | n in g :: 0 <= indeg[n])
    && (forall n | n in g :: indeg[n] == 0 <==> n in visited || n in queue)
  }

  ghost predicate CountInv(g: Graph, indeg: map<Str, int>, visited: set<Str>) {
    indeg.Keys == g.Keys && forall n | n in g :: indeg[n] == Pending(g[n], visited)
  }

  // The steps visited so far, ranked by when.
  ghost predicate RankInv(g: Graph, rank: map<Str, nat>) {
    && rank.Keys <= g.Keys
    && (forall n | n in rank :: rank[n] < |rank|)
    && (forall n | n in rank :: forall d | d in g[n] :: d in rank && rank[d] < rank[n])
  }

  // Visiting one step: its dependents wait for one step less, and those that
  // wait for none are queued.
  method Release(g: Graph, dependents: seq<Str>, indeg0: map<Str, int>, queue0: seq<Str>, ghost visited: set<Str>)
    returns (indeg: map<Str, int>, queue: seq<Str>)
    requires QueueInv(g, indeg0, queue0, visited)
    requires forall m | m in g :: multiset(dependents)[m] <= indeg0[m]
    requires forall m | m in dependents :: m in g
    ensures QueueInv(g, indeg, queue, visited)
    ensures forall m | m in g :: indeg[m] == indeg0[m] - multiset(dependents)[m]
  {
    indeg, queue := indeg0, queue0;
    for k := 0 to |dependents|
      invariant QueueInv(g, indeg, queue, visited)
      invariant forall m | m in g :: indeg[m] == indeg0[m] - multiset(dependents[..k])[m]
    {
      var m := dependents[k];
      MultisetStep(dependents, k);
      indeg := indeg[m := indeg[m] - 1];
      if indeg[m] == 0 {
        queue := queue + [m];
      }
    }
    assert dependents[..|dependents|] == dependents;
  }

  lemma MultisetStep(s: seq<Str>, k: nat)
    requires k < |s|
    ensures multiset(s[..k + 1]) == multiset(s[..k]) + multiset{s[k]}
    ensures forall x :: multiset(s[..k + 1])[x] <= multiset(s)[x]
  {
    assert s[..k + 1] == s[..k] + [s[k]];
    assert s == s[..k + 1] + s[k + 1..];
  }

  lemma VisitCounts(g: Graph, adj: map<Str, seq<Str>>, indeg0: map<Str, int>, n: Str, visited: set<Str>)
    requires Reverses(adj, g) && CountInv(g, indeg0, visited) && n !in visited
    ensures forall m | m in g :: indeg0[m] - multiset(Dependents(adj, n))[m] == Pending(g[m], visited + {n})
    ensures forall m | m in g :: multiset(Dependents(adj, n))[m] <= indeg0[m]
    ensures forall m | m in Dependents(adj, n) :: m in g
  {
    forall m ensures multiset(Dependents(adj, n))[m] == Count(g, m, n) {
      assert Tally(adj, n, m) == Count(g, m, n);
    }
    forall m | m in g ensures indeg0[m] - multiset(Dependents(adj, n))[m] == Pending(g[m], visited + {n}) {
      PendingVisit(g[m], visited, n);
    }
    forall m | m in Dependents(adj, n) ensures m in g {
      assert multiset(Dependents(adj, n))[m] > 0;
      assert Count(g, m, n) > 0;
    }
  }

  lemma NextRanked(g: Graph, rank: map<Str, nat>, n: Str)
    requires n in g && n !in rank && RankInv(g, rank) && forall d | d in g[n] :: d in rank
    ensures RankInv(g, rank[n := |rank|]) && rank[n := |rank|].Keys == rank.Keys + {n}
  {
    assert |rank[n := |rank|]| == |rank| + 1;
  }

  // A step waits for nothing when all its dependencies were visited.
  lemma ReadyIsRanked(g: Graph, indeg: map<Str, int>, rank: map<Str, nat>, n: Str)
    requires n in g && n !in rank && CountInv(g, indeg, rank.Keys) && indeg[n] == 0 && RankInv(g, rank)
    ensures RankInv(g, rank[n := |rank|])
  {
    PendingZero(g[n], rank.Keys);
    NextRanked(g, rank, n);
  }

  lemma PopQueue(g: Graph, indeg: map<Str, int>, queue: seq<Str>, visited: set<Str>)
    requires QueueInv(g, indeg, queue, visited) && queue != []
    ensures queue[0] in g && queue[0] !in visited && indeg[queue[0]] == 0
    ensures QueueInv(g, indeg, queue[1..], visited + {queue[0]})
  {
    assert queue == [queue[0]] + queue[1..];
  }

  method Visit(g: Graph, indeg0: map<Str, int>, adj: map<Str, seq<Str>>, queue0: seq<Str>)
    returns (visited: nat, ghost rank: map<Str, nat>)
    requires Reverses(adj, g) && CountInv(g, indeg0, {}) && QueueInv(g, indeg0, queue0, {})
    ensures visited == |rank| <= |g| && RankInv(g, rank)
    ensures Trapped(g, g.Keys - rank.Keys) || !Closed(g)
  {
    var indeg, queue := indeg0, queue0;
    visited, rank := 0, map[];
    assert rank.Keys == {};
    while |queue| > 0
      invariant QueueInv(g, indeg, queue, rank.Keys) && CountInv(g, indeg, rank.Keys) && RankInv(g, rank)
      invariant visited == |rank|
      decreases g.Keys - rank.Keys
    {
      var n := queue[0];
      PopQueue(g, indeg, queue, rank.Keys);
      VisitCounts(g, adj, indeg, n, rank.Keys);
      ReadyIsRanked(g, indeg, rank, n);
      assert rank[n := |rank|].Keys == rank.Keys + {n};
      queue := queue[1..];
      visited := visited + 1;
      rank := rank[n := |rank|];
      indeg, queue := Release(g, Dependents(adj, n), indeg, queue, rank.Keys);
    }
    UnvisitedTrapped(g, indeg, rank);
    SubsetSize(rank.Keys, g.Keys);
    assert |rank| == |rank.Keys| && |g| == |g.Keys|;
  }

  lemma UnvisitedTrapped(g: Graph, indeg: map<Str, int>, rank: map<Str, nat>)
    requires QueueInv(g, indeg, [], rank.Keys) && CountInv(g, indeg, rank.Keys)
    ensures Trapped(g, g.Keys - rank.Keys) || !Closed(g)
  {
    if Closed(g) {
      var u := g.Keys - rank.Keys;
      forall n | n in u ensures DependsInside(g, u, n) {
        PendingZero(g[n], rank.Keys);
        var d :| d in g[n] && d !in rank.Keys;
        assert d in u && Edge(g, d, n);
      }
    }
  }

  // The queue starts with the steps that depend on nothing, in order.
  method Roots(steps: seq<StepReq>, indeg: map<Str, int>) returns (queue: seq<Str>)
    requires DistinctNames(steps) && indeg == Degrees(GraphOf(steps))
    ensures QueueInv(GraphOf(steps), indeg, queue, {})
  {
    ghost var g := GraphOf(steps);
    GraphKeys(steps);
    queue := [];
    for i := 0 to |steps|
      invariant Distinct(queue)
      invariant forall n :: n in queue <==> exists j :: 0 <= j < i && steps[j].name == n && indeg[n] == 0
    {
      if indeg[steps[i].name] == 0 {
        assert steps[i].name !in queue;
        queue := queue + [steps[i].name];
      }
    }
  }

  method ValidateDAG(steps: seq<StepReq>) returns (v: Verdict)
    ensures v.Accepted? <==> Valid(steps)
    ensures v.Unnamed? ==> !Named(steps)
    ensures v.Duplicate? ==> exists i, j :: 0 <= i < j < |steps| && steps[i].name == steps[j].name == v.name
    ensures v.Unknown? ==> v.step in GraphOf(steps) && v.dep in GraphOf(steps)[v.step] && v.dep !in GraphOf(steps)
    ensures v.HasCycle? ==> Named(steps) && DistinctNames(steps) && Closed(GraphOf(steps)) && !Acyclic(GraphOf(steps))
  {
    var names;
    v, names := CheckNames(steps);
    if !v.Accepted? { return; }
    var indeg, adj;
    v, indeg, adj := Index(steps, names);
    if !v.Accepted? { return; }
    var queue := Roots(steps, indeg);
    InitialCounts(GraphOf(steps));
    var visited;
    ghost var rank;
    visited, rank := Visit(GraphOf(steps), indeg, adj, queue);
    GraphSize(steps);
    Verdicts(GraphOf(steps), rank);
    v := if visited != |steps| then HasCycle else Accepted;
  }

  lemma InitialCounts(g: Graph)
    ensures CountInv(g, Degrees(g), {})
  {
    forall n | n in g { PendingNone(g[n]); }
  }

  lemma Verdicts(g: Graph, rank: map<Str, nat>)
    requires RankInv(g, rank) && Trapped(g, g.Keys - rank.Keys)
    ensures Acyclic(g) <==> |rank| == |g|
  {
    SubsetSize(rank.Keys, g.Keys);
    if |rank| == |g| {
      assert |rank.Keys| == |g.Keys|;
      RankedIsAcyclic(g, rank);
    } else {
      assert rank.Keys + (g.Keys - rank.Keys) == g.Keys;
      assert |rank.Keys| == |rank| && |g.Keys| == |g|;
      TrappedIsCyclic(g, g.Keys - rank.Keys);
    }
  }

  // ---- ranks of a valid graph ---------------------------------------------------------

  // A closed acyclic graph can be ranked by numbers below its size.
  lemma {:induction false} ExtendRank(g: Graph, rank: map<Str, nat>) returns (full: map<Str, nat>)
    requires Closed(g) && Acyclic(g) && RankInv(g, rank)
    ensures RankInv(g, full) && full.Keys == g.Keys
    decreases g.Keys - rank.Keys
  {
    var u := g.Keys - rank.Keys;
    if u == {} {
      assert rank.Keys == g.Keys;
      full := rank;
    } else {
      if Trapped(g, u) {
        TrappedIsCyclic(g, u);
      }
      var n :| n in u && !DependsInside(g, u, n);
      forall d | d in g[n] ensures d in rank {
        assert d in g && Edge(g, d, n);
        assert d in u ==> DependsInside(g, u, n);
      }
      NextRanked(g, rank, n);
      full := ExtendRank(g, rank[n := |rank|]);
    }
  }

  lemma AcyclicIsRanked(g: Graph) returns (rank: map<Str, nat>)
    requires Closed(g) && Acyclic(g)
    ensures Ranks(g, rank) && forall n | n in g :: rank[n] < |g|
  {
    rank := ExtendRank(g, map[]);
    assert |rank.Keys| == |rank| && |g.Keys| == |g|;
  }

  // A closed graph is acyclic exactly when its steps can be ranked.
  lemma AcyclicIffRanked(g: Graph)
    requires Closed(g)
    ensures Acyclic(g) <==> exists rank :: Ranks(g, rank)
  {
    if Acyclic(g) {
      var rank := AcyclicIsRanked(g);
    } else {
      forall rank ensures !Ranks(g, rank) {
        if Ranks(g, rank) { RankedIsAcyclic(g, rank); }
      }
    }
  }
}
