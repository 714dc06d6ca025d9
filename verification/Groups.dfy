// Workflows declared as groups of steps: each group's After dependencies are
// expanded onto its member steps.

module Groups {
  import opened Names
  import opened Dag

  datatype Group = Group(name: Str, steps: seq<StepReq>, after: seq<Str>)

  // The first occurrence of each element.
  function Dedup(xs: seq<Str>): seq<Str> {
    if xs == [] then []
    else
      var front, last := xs[..|xs| - 1], xs[|xs| - 1];
      if last in front then Dedup(front) else Dedup(front) + [last]
  }

  lemma {:induction false} DedupMembers(xs: seq<Str>)
    ensures forall x :: x in Dedup(xs) <==> x in xs
  {
    if xs != [] {
      var front, last := xs[..|xs| - 1], xs[|xs| - 1];
      assert xs == front + [last];
      DedupMembers(front);
    }
  }

  // Each once, in the order they first occur.
  lemma {:induction false} DedupOnce(xs: seq<Str>, k: nat)
    requires k <= |xs|
    ensures forall i, j | 0 <= i < j < |Dedup(xs)| :: Dedup(xs)[i] != Dedup(xs)[j]
    ensures Dedup(xs[..k]) <= Dedup(xs)
    decreases |xs|
  {
    if k == |xs| {
      assert xs[..k] == xs;
    }
    if xs != [] {
      var front := xs[..|xs| - 1];
      DedupMembers(front);
      if k < |xs| {
        assert front[..k] == xs[..k];
        DedupOnce(front, k);
      } else {
        DedupOnce(front, |front|);
      }
    }
  }

  method DedupStrings(xs: seq<Str>) returns (out: seq<Str>)
    ensures out == Dedup(xs)
  {
    var seen := {};
    out := [];
    for i := 0 to |xs|
      invariant out == Dedup(xs[..i])
      invariant forall x :: x in seen <==> x in xs[..i]
    {
      assert xs[..i + 1][..i] == xs[..i];
      if xs[i] !in seen {
        out := out + [xs[i]];
      }
      seen := seen + {xs[i]};
    }
    assert xs[..|xs|] == xs;
  }

  // The groups by name; unnamed groups cannot be waited on.
  function ByName(groups: seq<Group>): map<Str, Group> {
    if groups == [] then map[]
    else
      var front, last := ByName(groups[..|groups| - 1]), groups[|groups| - 1];
      if last.name == Empty then front else front[last.name := last]
  }

  function NamesOf(steps: seq<StepReq>): seq<Str> {
    seq(|steps|, i requires 0 <= i < |steps| => steps[i].name)
  }

  // The steps a group waits on: the members of every known group it is after.
  function DepSteps(byName: map<Str, Group>, after: seq<Str>): seq<Str> {
    if after == [] then []
    else
      var last := after[|after| - 1];
      DepSteps(byName, after[..|after| - 1]) + if last in byName then NamesOf(byName[last].steps) else []
  }

  function ExpandStep(s: StepReq, depSteps: seq<Str>): StepReq {
    s.(deps := Dedup(s.deps + depSteps))
  }

  function ExpandGroup(steps: seq<StepReq>, depSteps: seq<Str>): seq<StepReq> {
    seq(|steps|, i requires 0 <= i < |steps| => ExpandStep(steps[i], depSteps))
  }

  function ExpandAll(byName: map<Str, Group>, groups: seq<Group>): seq<StepReq> {
    if groups == [] then []
    else
      var last := groups[|groups| - 1];
      ExpandAll(byName, groups[..|groups| - 1]) + ExpandGroup(last.steps, Dedup(DepSteps(byName, last.after)))
  }

  function Expand(groups: seq<Group>): seq<StepReq> {
    ExpandAll(ByName(groups), groups)
  }

  method DependencySteps(byName: map<Str, Group>, after: seq<Str>) returns (out: seq<Str>)
    ensures out == DepSteps(byName, after)
  {
    out := [];
    for i := 0 to |after|
      invariant out == DepSteps(byName, after[..i])
    {
      assert after[..i + 1][..i] == after[..i];
      if after[i] in byName {
        ghost var out0 := out;
        var steps := byName[after[i]].steps;
        for k := 0 to |steps|
          invariant out == out0 + NamesOf(steps)[..k]
        {
          out := out + [steps[k].name];
        }
        assert NamesOf(steps)[..|steps|] == NamesOf(steps);
      }
    }
    assert after[..|after|] == after;
  }

  method NewGroupWorkflow(groups: seq<Group>) returns (steps: seq<StepReq>)
    ensures steps == Expand(groups)
  {
    var byName := map[];
    for i := 0 to |groups|
      invariant byName == ByName(groups[..i])
    {
      assert groups[..i + 1][..i] == groups[..i];
      if groups[i].name != Empty {
        byName := byName[groups[i].name := groups[i]];
      }
    }
    assert groups[..|groups|] == groups;
    steps := [];
    for i := 0 to |groups|
      invariant steps == ExpandAll(byName, groups[..i])
    {
      assert groups[..i + 1][..i] == groups[..i];
      var depSteps := DependencySteps(byName, groups[i].after);
      depSteps := DedupStrings(depSteps);
      ghost var steps0 := steps;
      var members := groups[i].steps;
      for k := 0 to |members|
        invariant steps == steps0 + ExpandGroup(members, depSteps)[..k]
      {
        var deps := DedupStrings(members[k].deps + depSteps);
        steps := steps + [members[k].(deps := deps)];
      }
      assert ExpandGroup(members, depSteps)[..|members|] == ExpandGroup(members, depSteps);
    }
  }

  // ---- what a declaration means ---------------------------------------------------

  predicate IsMember(g: Group, name: Str) {
    exists k :: 0 <= k < |g.steps| && g.steps[k].name == name
  }

  // Named, distinct and non-empty groups whose steps have distinct names and
  // declare only dependencies inside their own group.
  ghost predicate WellGrouped(groups: seq<Group>) {
    && (forall i | 0 <= i < |groups| :: groups[i].name != Empty && groups[i].steps != [])
    && (forall i, j | 0 <= i < j < |groups| :: groups[i].name != groups[j].name)
    && (forall i | 0 <= i < |groups| :: Dag.Named(groups[i].steps) && DistinctNames(groups[i].steps) && Closed(GraphOf(groups[i].steps)))
    && (forall i, j, n | 0 <= i < j < |groups| && IsMember(groups[i], n) :: !IsMember(groups[j], n))
  }

  function KnownAfter(byName: map<Str, Group>, after: seq<Str>): seq<Str> {
    if after == [] then []
    else KnownAfter(byName, after[..|after| - 1]) + if after[|after| - 1] in byName then [after[|after| - 1]] else []
  }

  // The After relation between the declared groups.
  function AfterGraph(groups: seq<Group>): Graph {
    map n | n in ByName(groups) :: KnownAfter(ByName(groups), ByName(groups)[n].after)
  }

  lemma {:induction false} KnownMembers(byName: map<Str, Group>, after: seq<Str>)
    ensures forall x :: x in KnownAfter(byName, after) <==> x in after && x in byName
  {
    if after != [] {
      assert after == after[..|after| - 1] + [after[|after| - 1]];
      KnownMembers(byName, after[..|after| - 1]);
    }
  }

  lemma NamesMembers(g: Group)
    ensures forall x :: x in NamesOf(g.steps) <==> IsMember(g, x)
  {
    forall x ensures x in NamesOf(g.steps) <==> IsMember(g, x) {
      if IsMember(g, x) {
        var k :| 0 <= k < |g.steps| && g.steps[k].name == x;
        assert NamesOf(g.steps)[k] == x;
      }
    }
  }

  lemma {:induction false} DepStepsMembers(byName: map<Str, Group>, after: seq<Str>)
    ensures forall x :: x in DepSteps(byName, after) <==> exists h :: h in after && h in byName && IsMember(byName[h], x)
  {
    if after != [] {
      var last := after[|after| - 1];
      assert after == after[..|after| - 1] + [last];
      DepStepsMembers(byName, after[..|after| - 1]);
      if last in byName {
        NamesMembers(byName[last]);
      }
    }
  }

  lemma {:induction false} ByNameFinds(groups: seq<Group>)
    requires forall i | 0 <= i < |groups| :: groups[i].name != Empty
    requires forall i, j | 0 <= i < j < |groups| :: groups[i].name != groups[j].name
    ensures forall i | 0 <= i < |groups| :: groups[i].name in ByName(groups) && ByName(groups)[groups[i].name] == groups[i]
    ensures forall n | n in ByName(groups) :: exists i :: 0 <= i < |groups| && groups[i].name == n
  {
    if groups != [] {
      ByNameFinds(groups[..|groups| - 1]);
    }
  }

  // The expansion of member k of group i.
  function Expanded(byName: map<Str, Group>, g: Group, k: nat): StepReq
    requires k < |g.steps|
  {
    ExpandStep(g.steps[k], Dedup(DepSteps(byName, g.after)))
  }

  lemma {:induction false} ExpandIndex(byName: map<Str, Group>, groups: seq<Group>, i: nat, k: nat) returns (at: nat)
    requires i < |groups| && k < |groups[i].steps|
    ensures at < |ExpandAll(byName, groups)| && ExpandAll(byName, groups)[at] == Expanded(byName, groups[i], k)
  {
    var front := ExpandAll(byName, groups[..|groups| - 1]);
    if i == |groups| - 1 {
      at := |front| + k;
    } else {
      at := ExpandIndex(byName, groups[..|groups| - 1], i, k);
    }
  }

  lemma {:induction false} ExpandOrigin(byName: map<Str, Group>, groups: seq<Group>, at: nat) returns (i: nat, k: nat)
    requires at < |ExpandAll(byName, groups)|
    ensures i < |groups| && k < |groups[i].steps|
    ensures ExpandAll(byName, groups)[at] == Expanded(byName, groups[i], k)
  {
    var front := ExpandAll(byName, groups[..|groups| - 1]);
    if at < |front| {
      i, k := ExpandOrigin(byName, groups[..|groups| - 1], at);
    } else {
      i, k := |groups| - 1, at - |front|;
    }
  }

  // Distinct member names make the expanded names distinct.
  lemma {:induction false} ExpandDistinct(byName: map<Str, Group>, groups: seq<Group>)
    requires forall i | 0 <= i < |groups| :: DistinctNames(groups[i].steps)
    requires forall i, j, n | 0 <= i < j < |groups| && IsMember(groups[i], n) :: !IsMember(groups[j], n)
    ensures DistinctNames(ExpandAll(byName, groups))
  {
    if groups != [] {
      var front := groups[..|groups| - 1];
      ExpandDistinct(byName, front);
      forall a, b | 0 <= a < b < |ExpandAll(byName, groups)|
        ensures ExpandAll(byName, groups)[a].name != ExpandAll(byName, groups)[b].name
      {
        if a < |ExpandAll(byName, front)| <= b {
          var i, k := ExpandOrigin(byName, front, a);
          assert IsMember(groups[i], ExpandAll(byName, groups)[a].name);
          assert !IsMember(groups[|groups| - 1], ExpandAll(byName, groups)[a].name);
        }
      }
    }
  }

  // A member of a known group that group i is after.
  predicate Waits(groups: seq<Group>, i: nat, d: Str)
    requires i < |groups|
  {
    exists h :: h in groups[i].after && h in ByName(groups) && IsMember(ByName(groups)[h], d)
  }

  // The edges of the expansion: a step depends on what it declares and on every
  // member of every group its own group is after.
  lemma ExpandedDeps(groups: seq<Group>, i: nat, k: nat)
    requires WellGrouped(groups) && i < |groups| && k < |groups[i].steps|
    ensures groups[i].steps[k].name in GraphOf(Expand(groups))
    ensures forall d :: d in GraphOf(Expand(groups))[groups[i].steps[k].name] <==>
      d in groups[i].steps[k].deps || Waits(groups, i, d)
  {
    var byName := ByName(groups);
    ByNameFinds(groups);
    ExpandDistinct(byName, groups);
    var at := ExpandIndex(byName, groups, i, k);
    GraphDeps(Expand(groups), at);
    var depSteps := DepSteps(byName, groups[i].after);
    DedupMembers(depSteps);
    DedupMembers(groups[i].steps[k].deps + Dedup(depSteps));
    DepStepsMembers(byName, groups[i].after);
  }

  lemma ExpandedNames(groups: seq<Group>, n: Str) returns (i: nat, k: nat)
    requires n in GraphOf(Expand(groups))
    ensures i < |groups| && k < |groups[i].steps| && groups[i].steps[k].name == n
  {
    GraphKeys(Expand(groups));
    var at :| 0 <= at < |Expand(groups)| && Expand(groups)[at].name == n;
    i, k := ExpandOrigin(ByName(groups), groups, at);
  }

  lemma AfterEdges(groups: seq<Group>, i: nat, h: Str)
    requires WellGrouped(groups) && i < |groups|
    ensures groups[i].name in AfterGraph(groups)
    ensures Edge(AfterGraph(groups), h, groups[i].name) <==> h in groups[i].after && h in ByName(groups)
  {
    ByNameFinds(groups);
    KnownMembers(ByName(groups), groups[i].after);
  }

  lemma AfterClosed(groups: seq<Group>)
    ensures Closed(AfterGraph(groups))
  {
    forall n | n in ByName(groups) ensures forall h | h in AfterGraph(groups)[n] :: h in ByName(groups) {
      KnownMembers(ByName(groups), ByName(groups)[n].after);
    }
  }

  lemma ExpansionClosed(groups: seq<Group>)
    requires WellGrouped(groups)
    ensures Dag.Named(Expand(groups)) && DistinctNames(Expand(groups)) && Closed(GraphOf(Expand(groups)))
  {
    var all := Expand(groups);
    ExpandDistinct(ByName(groups), groups);
    ByNameFinds(groups);
    forall at | 0 <= at < |all| ensures all[at].name != Empty {
      var i, k := ExpandOrigin(ByName(groups), groups, at);
    }
    forall n | n in GraphOf(all) ensures forall d | d in GraphOf(all)[n] :: d in GraphOf(all) {
      var i, k := ExpandedNames(groups, n);
      ExpandedDeps(groups, i, k);
      GraphDeps(groups[i].steps, k);
      forall d | d in GraphOf(all)[n] ensures d in GraphOf(all) {
        var j, l;
        if d in groups[i].steps[k].deps {
          GraphKeys(groups[i].steps);
          l :| 0 <= l < |groups[i].steps| && groups[i].steps[l].name == d;
          j := i;
        } else {
          var h :| h in groups[i].after && h in ByName(groups) && IsMember(ByName(groups)[h], d);
          j :| 0 <= j < |groups| && groups[j].name == h;
          l :| 0 <= l < |groups[j].steps| && groups[j].steps[l].name == d;
        }
        ExpandedDeps(groups, j, l);
      }
    }
  }

  // A rank of the expansion ranks each group by its first member, and ranks the
  // members of each group.
  lemma RankDown(groups: seq<Group>, rank: map<Str, nat>)
    requires WellGrouped(groups) && Ranks(GraphOf(Expand(groups)), rank)
    ensures Acyclic(AfterGraph(groups))
    ensures forall i | 0 <= i < |groups| :: Acyclic(GraphOf(groups[i].steps))
  {
    var byName := ByName(groups);
    ByNameFinds(groups);
    forall i, k | 0 <= i < |groups| && 0 <= k < |groups[i].steps|
      ensures groups[i].steps[k].name in rank
    {
      ExpandedDeps(groups, i, k);
    }
    var first: map<Str, nat> := map n | n in byName :: rank[byName[n].steps[0].name];
    forall n | n in AfterGraph(groups)
      ensures forall h | h in AfterGraph(groups)[n] :: h in first && first[h] < first[n]
    {
      var i :| 0 <= i < |groups| && groups[i].name == n;
      ExpandedDeps(groups, i, 0);
      KnownMembers(byName, groups[i].after);
      forall h | h in AfterGraph(groups)[n] ensures first[h] < first[n] {
        assert IsMember(byName[h], byName[h].steps[0].name);
        assert Waits(groups, i, byName[h].steps[0].name);
      }
    }
    RankedIsAcyclic(AfterGraph(groups), first);
    forall i | 0 <= i < |groups| ensures Acyclic(GraphOf(groups[i].steps)) {
      RankDownInside(groups, rank, i);
    }
  }

  lemma RankDownInside(groups: seq<Group>, rank: map<Str, nat>, i: nat)
    requires WellGrouped(groups) && Ranks(GraphOf(Expand(groups)), rank) && i < |groups|
    ensures Acyclic(GraphOf(groups[i].steps))
  {
    var g := GraphOf(groups[i].steps);
    GraphKeys(groups[i].steps);
    forall n | n in g ensures n in rank && forall d | d in g[n] :: d in rank && rank[d] < rank[n] {
      var k :| 0 <= k < |groups[i].steps| && groups[i].steps[k].name == n && g[n] == groups[i].steps[k].deps;
      ExpandedDeps(groups, i, k);
    }
    RankedIsAcyclic(g, rank);
  }

  lemma {:induction false} GroupRanks(groups: seq<Group>) returns (ranks: seq<map<Str, nat>>, bound: nat)
    requires forall i | 0 <= i < |groups| :: Closed(GraphOf(groups[i].steps)) && Acyclic(GraphOf(groups[i].steps))
    ensures |ranks| == |groups|
    ensures forall i | 0 <= i < |groups| :: Ranks(GraphOf(groups[i].steps), ranks[i])
    ensures forall i, n | 0 <= i < |groups| && n in GraphOf(groups[i].steps) :: n in ranks[i] && ranks[i][n] < bound
  {
    if groups == [] {
      ranks, bound := [], 0;
    } else {
      var g := GraphOf(groups[|groups| - 1].steps);
      var rank := AcyclicIsRanked(g);
      ranks, bound := GroupRanks(groups[..|groups| - 1]);
      ranks, bound := ranks + [rank], if |g| > bound then |g| else bound;
    }
  }

  ghost function OwnerOf(groups: seq<Group>, n: Str): (i: nat)
    requires exists j :: 0 <= j < |groups| && IsMember(groups[j], n)
    ensures i < |groups| && IsMember(groups[i], n)
  {
    var j :| 0 <= j < |groups| && IsMember(groups[j], n);
    j
  }

  function LexRank(major: nat, minor: nat, bound: nat): nat {
    major * bound + minor
  }

  lemma LexGrows(a: nat, b: nat, x: nat, y: nat, bound: nat)
    requires x < bound && y < bound
    requires a < b || (a == b && x < y)
    ensures LexRank(a, x, bound) < LexRank(b, y, bound)
  {
    if a < b {
      assert (a + 1) * bound <= b * bound;
    }
  }

  // Ranks of the groups and of each group's members rank the expansion.
  lemma RankUp(groups: seq<Group>)
    requires WellGrouped(groups)
    requires Acyclic(AfterGraph(groups)) && forall i | 0 <= i < |groups| :: Acyclic(GraphOf(groups[i].steps))
    ensures Acyclic(GraphOf(Expand(groups)))
  {
    var g := GraphOf(Expand(groups));
    AfterClosed(groups);
    var major := AcyclicIsRanked(AfterGraph(groups));
    var minors, bound := GroupRanks(groups);
    forall n | n in g ensures exists j :: 0 <= j < |groups| && IsMember(groups[j], n) {
      var i, k := ExpandedNames(groups, n);
      assert IsMember(groups[i], n);
    }
    forall i, n | 0 <= i < |groups| && IsMember(groups[i], n)
      ensures groups[i].name in major && n in minors[i] && minors[i][n] < bound
    {
      ByNameFinds(groups);
      GraphKeys(groups[i].steps);
    }
    var rank := map n | n in g ::
      LexRank(major[groups[OwnerOf(groups, n)].name], minors[OwnerOf(groups, n)][n], bound);
    forall n | n in g ensures forall d | d in g[n] :: d in rank && rank[d] < rank[n] {
      ExpansionClosed(groups);
      forall d | d in g[n] ensures rank[d] < rank[n] {
        EdgeGrows(groups, major, minors, bound, n, d);
      }
    }
    RankedIsAcyclic(g, rank);
  }

  // An edge of the expansion stays inside a group or follows the After relation.
  lemma EdgeOwners(groups: seq<Group>, n: Str, d: Str, i: nat, j: nat)
    requires WellGrouped(groups) && i < |groups| && j < |groups|
    requires IsMember(groups[i], n) && IsMember(groups[j], d)
    requires n in GraphOf(Expand(groups)) && d in GraphOf(Expand(groups))[n]
    ensures (i == j && Edge(GraphOf(groups[i].steps), d, n)) || Edge(AfterGraph(groups), groups[j].name, groups[i].name)
  {
    var k :| 0 <= k < |groups[i].steps| && groups[i].steps[k].name == n;
    ExpandedDeps(groups, i, k);
    GraphDeps(groups[i].steps, k);
    if d in groups[i].steps[k].deps {
      GraphKeys(groups[i].steps);
      assert IsMember(groups[i], d);
    } else {
      var h :| h in groups[i].after && h in ByName(groups) && IsMember(ByName(groups)[h], d);
      ByNameFinds(groups);
      AfterEdges(groups, i, h);
    }
  }

  lemma EdgeGrows(groups: seq<Group>, major: map<Str, nat>, minors: seq<map<Str, nat>>, bound: nat, n: Str, d: Str)
    requires WellGrouped(groups)
    requires Ranks(AfterGraph(groups), major) && |minors| == |groups|
    requires forall i | 0 <= i < |groups| :: Ranks(GraphOf(groups[i].steps), minors[i])
    requires forall i, m | 0 <= i < |groups| && IsMember(groups[i], m) ::
      groups[i].name in major && m in minors[i] && minors[i][m] < bound
    requires n in GraphOf(Expand(groups)) && d in GraphOf(Expand(groups))[n]
    requires exists j :: 0 <= j < |groups| && IsMember(groups[j], n)
    requires exists j :: 0 <= j < |groups| && IsMember(groups[j], d)
    ensures LexRank(major[groups[OwnerOf(groups, d)].name], minors[OwnerOf(groups, d)][d], bound)
            < LexRank(major[groups[OwnerOf(groups, n)].name], minors[OwnerOf(groups, n)][n], bound)
  {
    var i, j := OwnerOf(groups, n), OwnerOf(groups, d);
    EdgeOwners(groups, n, d, i, j);
    LexGrows(major[groups[j].name], major[groups[i].name], minors[j][d], minors[i][n], bound);
  }

  // A grouped workflow is accepted exactly when its groups wait on each other
  // without a cycle and no group has a cycle of its own.
  lemma GroupAcceptance(groups: seq<Group>)
    requires WellGrouped(groups)
    ensures Valid(Expand(groups)) <==>
      Acyclic(AfterGraph(groups)) && forall i | 0 <= i < |groups| :: Acyclic(GraphOf(groups[i].steps))
  {
    ExpansionClosed(groups);
    if Acyclic(GraphOf(Expand(groups))) {
      var rank := AcyclicIsRanked(GraphOf(Expand(groups)));
      RankDown(groups, rank);
    }
    if Acyclic(AfterGraph(groups)) && forall i | 0 <= i < |groups| :: Acyclic(GraphOf(groups[i].steps)) {
      RankUp(groups);
    }
  }

  ghost predicate Reaches(g: Graph, a: Str, b: Str) {
    exists p :: |p| > 1 && Walk(g, p) && p[0] == a && p[|p| - 1] == b
  }

  lemma ReachStep(g: Graph, a: Str, b: Str, c: Str)
    requires (a == b || Reaches(g, a, b)) && a in g && Edge(g, b, c)
    ensures Reaches(g, a, c)
  {
    if a == b {
      assert Walk(g, [a, c]);
    } else {
      var p :| |p| > 1 && Walk(g, p) && p[0] == a && p[|p| - 1] == b;
      assert Walk(g, p + [c]);
    }
  }

  // Every member of a group runs after every member of each group it follows,
  // directly or through other groups.
  lemma {:induction false} GroupOrder(groups: seq<Group>, p: seq<Str>, a: Str, b: Str)
    requires WellGrouped(groups)
    requires Walk(AfterGraph(groups), p) && |p| > 1
    requires IsMember(ByName(groups)[p[0]], a) && IsMember(ByName(groups)[p[|p| - 1]], b)
    ensures Reaches(GraphOf(Expand(groups)), a, b)
  {
    var g := GraphOf(Expand(groups));
    var n := |p| - 1;
    assert Edge(AfterGraph(groups), p[n - 1], p[n]);
    ByNameFinds(groups);
    MemberOf(groups, p[0], a);
    if n == 1 {
      StepAfter(groups, p[0], a, p[n], b);
      ReachStep(g, a, a, b);
    } else {
      var c := ByName(groups)[p[n - 1]].steps[0].name;
      assert IsMember(ByName(groups)[p[n - 1]], c);
      GroupOrder(groups, p[..n], a, c);
      StepAfter(groups, p[n - 1], c, p[n], b);
      ReachStep(g, a, c, b);
    }
  }

  lemma MemberOf(groups: seq<Group>, h: Str, a: Str)
    requires WellGrouped(groups) && h in ByName(groups) && IsMember(ByName(groups)[h], a)
    ensures a in GraphOf(Expand(groups))
  {
    ByNameFinds(groups);
    var j :| 0 <= j < |groups| && groups[j].name == h;
    var l :| 0 <= l < |groups[j].steps| && groups[j].steps[l].name == a;
    ExpandedDeps(groups, j, l);
  }

  // A member of a group depends on every member of a group it is directly after.
  lemma StepAfter(groups: seq<Group>, h: Str, c: Str, n: Str, b: Str)
    requires WellGrouped(groups) && Edge(AfterGraph(groups), h, n) && h in ByName(groups)
    requires IsMember(ByName(groups)[h], c) && IsMember(ByName(groups)[n], b)
    ensures Edge(GraphOf(Expand(groups)), c, b)
  {
    ByNameFinds(groups);
    var i :| 0 <= i < |groups| && groups[i].name == n;
    var k :| 0 <= k < |groups[i].steps| && groups[i].steps[k].name == b;
    ExpandedDeps(groups, i, k);
    AfterEdges(groups, i, h);
    assert Waits(groups, i, c);
  }
}
