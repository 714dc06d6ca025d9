// Clusters inside clusters: each is laid out on its own, becomes one box in its
// parent, and is moved into place last.

module Boxes {
  import opened Geometry
  import opened Names
  import opened Schema
  import opened Layout

  // A group's own steps and the groups nested in it; the root is the run itself.
  datatype Cluster = Cluster(key: Str, deps: seq<Str>, nodes: seq<Str>, children: seq<Cluster>)

  datatype Edge = Edge(from: Str, to: Str)

  // A laid-out cluster: its size, and where its nodes and child boxes are in it.
  datatype Laid = Laid(key: Str, w: real, h: real, local: map<Str, Pos>, unitPos: map<Str, Pos>, children: seq<Laid>)

  function NodesOf(c: Cluster): set<Str> {
    (set n | n in c.nodes) + set ch, n | ch in c.children && n in NodesOf(ch) :: n
  }

  function KeysOf(c: Cluster): set<Str> {
    (set ch | ch in c.children :: ch.key) + set ch, k | ch in c.children && k in KeysOf(ch) :: k
  }

  // No node of a cluster is also in its j-th child.
  ghost predicate NotInChild(c: Cluster, j: nat) {
    j < |c.children| && forall n | n in c.nodes :: n !in NodesOf(c.children[j])
  }

  // Two children share no node and no group, and neither is a group of the other.
  ghost predicate Unrelated(c: Cluster, i: nat, j: nat) {
    && i < |c.children| && j < |c.children|
    && c.children[i].key !in KeysOf(c.children[j]) && c.children[j].key !in KeysOf(c.children[i])
    && (i != j ==>
          && c.children[i].key != c.children[j].key
          && NodesOf(c.children[i]) !! NodesOf(c.children[j]) && KeysOf(c.children[i]) !! KeysOf(c.children[j]))
  }

  // Names are used once: no two nodes and no two groups share one.
  ghost predicate Distinct(c: Cluster) {
    && (forall i, j | 0 <= i < j < |c.nodes| :: c.nodes[i] != c.nodes[j])
    && (forall j: nat {:trigger NotInChild(c, j)} | j < |c.children| :: NotInChild(c, j))
    && (forall i: nat, j: nat {:trigger Unrelated(c, i, j)} | i <= j < |c.children| :: Unrelated(c, i, j))
    && (forall ch {:trigger Distinct(ch)} | ch in c.children :: ch.key != Empty && Distinct(ch))
  }

  // ---- the units of a cluster ---------------------------------------------------------------

  // Its nodes, then its child clusters, by number.
  function UnitCount(c: Cluster): nat {
    |c.nodes| + |c.children|
  }

  function LastNode(nodes: seq<Str>, name: Str, m: nat): Option<nat>
    requires m <= |nodes|
  {
    if m == 0 then None else if nodes[m - 1] == name then Some(m - 1) else LastNode(nodes, name, m - 1)
  }

  // The number of the last child, among the first m, that holds a node.
  function LastHolder(c: Cluster, name: Str, m: nat): Option<nat>
    requires m <= |c.children|
  {
    if m == 0 then None else if name in NodesOf(c.children[m - 1]) then Some(|c.nodes| + m - 1) else LastHolder(c, name, m - 1)
  }

  // The unit that stands for a node in this cluster.
  function Owner(c: Cluster, name: Str): Option<nat> {
    OwnerAmong(c, name, |c.children|)
  }

  function OwnerAmong(c: Cluster, name: Str, m: nat): Option<nat>
    requires m <= |c.children|
  {
    var h := LastHolder(c, name, m);
    if h.Some? then h else LastNode(c.nodes, name, |c.nodes|)
  }

  function Lookup(owner: map<Str, nat>, name: Str): Option<nat> {
    if name in owner then Some(owner[name]) else None
  }

  function LastGroup(c: Cluster, key: Str, m: nat): Option<nat>
    requires m <= |c.children|
  {
    if m == 0 then None else if c.children[m - 1].key == key then Some(|c.nodes| + m - 1) else LastGroup(c, key, m - 1)
  }

  // What a group dependency points at: a node's unit, or a child group.
  function DepUnit(c: Cluster, dep: Str): Option<nat> {
    if Owner(c, dep).Some? then Owner(c, dep) else LastGroup(c, dep, |c.children|)
  }

  lemma {:induction false} HolderInRange(c: Cluster, name: Str, m: nat)
    requires m <= |c.children|
    ensures var h := LastHolder(c, name, m); h.Some? ==> |c.nodes| <= h.value < |c.nodes| + m
    ensures var g := LastGroup(c, name, m); g.Some? ==> |c.nodes| <= g.value < |c.nodes| + m
  {
    if m > 0 {
      HolderInRange(c, name, m - 1);
    }
  }

  lemma {:induction false} NodeInRange(nodes: seq<Str>, name: Str, m: nat)
    requires m <= |nodes|
    ensures LastNode(nodes, name, m).Some? ==> LastNode(nodes, name, m).value < m
  {
    if m > 0 {
      NodeInRange(nodes, name, m - 1);
    }
  }

  lemma UnitsInRange(c: Cluster, name: Str)
    ensures Owner(c, name).Some? ==> Owner(c, name).value < UnitCount(c)
    ensures DepUnit(c, name).Some? ==> DepUnit(c, name).value < UnitCount(c)
  {
    HolderInRange(c, name, |c.children|);
    NodeInRange(c.nodes, name, |c.nodes|);
  }

  // The map every lookup goes through; later units overwrite earlier ones.
  method BuildOwners(c: Cluster) returns (owner: map<Str, nat>)
    ensures forall name :: Lookup(owner, name) == Owner(c, name)
  {
    owner := map[];
    for i := 0 to |c.nodes|
      invariant forall name :: Lookup(owner, name) == LastNode(c.nodes, name, i)
    {
      owner := owner[c.nodes[i] := i];
    }
    for j := 0 to |c.children|
      invariant forall name :: Lookup(owner, name) == OwnerAmong(c, name, j)
    {
      var u: nat := |c.nodes| + j;
      ghost var before := owner;
      owner := owner + map name | name in NodesOf(c.children[j]) :: u;
      forall name ensures Lookup(owner, name) == OwnerAmong(c, name, j + 1) {
        assert Lookup(before, name) == OwnerAmong(c, name, j);
      }
    }
  }

  // ---- lifted edges -----------------------------------------------------------------------------

  // The link one edge lifts to, if it does not stay inside a unit.
  function LinkOf(a: Option<nat>, b: Option<nat>): seq<Link> {
    if a.Some? && b.Some? && a != b then [Link(a.value, b.value)] else []
  }

  function EdgeLinks(c: Cluster, edges: seq<Edge>): seq<Link> {
    if edges == [] then []
    else
      var e := edges[|edges| - 1];
      EdgeLinks(c, edges[..|edges| - 1]) + LinkOf(Owner(c, e.from), Owner(c, e.to))
  }

  function DepLinks(c: Cluster, j: nat, deps: seq<Str>): seq<Link> {
    if deps == [] then []
    else DepLinks(c, j, deps[..|deps| - 1]) + LinkOf(DepUnit(c, deps[|deps| - 1]), Some(|c.nodes| + j))
  }

  function GroupLinks(c: Cluster, m: nat): seq<Link>
    requires m <= |c.children|
  {
    if m == 0 then [] else GroupLinks(c, m - 1) + DepLinks(c, m - 1, c.children[m - 1].deps)
  }

  function Links(c: Cluster, edges: seq<Edge>): seq<Link> {
    EdgeLinks(c, edges) + GroupLinks(c, |c.children|)
  }

  lemma {:induction false} EdgeLinksInRange(c: Cluster, edges: seq<Edge>)
    ensures InRange(EdgeLinks(c, edges), UnitCount(c))
  {
    if edges != [] {
      var e := edges[|edges| - 1];
      EdgeLinksInRange(c, edges[..|edges| - 1]);
      UnitsInRange(c, e.from);
      UnitsInRange(c, e.to);
    }
  }

  lemma {:induction false} DepLinksInRange(c: Cluster, j: nat, deps: seq<Str>)
    requires j < |c.children|
    ensures InRange(DepLinks(c, j, deps), UnitCount(c))
  {
    if deps != [] {
      DepLinksInRange(c, j, deps[..|deps| - 1]);
      UnitsInRange(c, deps[|deps| - 1]);
    }
  }

  lemma {:induction false} GroupLinksInRange(c: Cluster, m: nat)
    requires m <= |c.children|
    ensures InRange(GroupLinks(c, m), UnitCount(c))
  {
    if m > 0 {
      GroupLinksInRange(c, m - 1);
      DepLinksInRange(c, m - 1, c.children[m - 1].deps);
    }
  }

  lemma LinksInRange(c: Cluster, edges: seq<Edge>)
    ensures InRange(Links(c, edges), UnitCount(c))
  {
    EdgeLinksInRange(c, edges);
    GroupLinksInRange(c, |c.children|);
  }

  // An edge between two different units.
  predicate Crosses(c: Cluster, e: Edge) {
    Owner(c, e.from).Some? && Owner(c, e.to).Some? && Owner(c, e.from) != Owner(c, e.to)
  }

  function LinkFor(c: Cluster, e: Edge): Link
    requires Crosses(c, e)
  {
    Link(Owner(c, e.from).value, Owner(c, e.to).value)
  }

  predicate Lifted(c: Cluster, edges: seq<Edge>, links: seq<Link>) {
    forall i | 0 <= i < |edges| :: Crosses(c, edges[i]) ==> LinkFor(c, edges[i]) in links
  }

  lemma {:induction false} EdgesAreLinks(c: Cluster, edges: seq<Edge>)
    ensures Lifted(c, edges, EdgeLinks(c, edges))
  {
    if edges != [] {
      EdgesAreLinks(c, edges[..|edges| - 1]);
      forall i | 0 <= i < |edges| && Crosses(c, edges[i]) ensures LinkFor(c, edges[i]) in EdgeLinks(c, edges) {
        assert i < |edges| - 1 ==> edges[..|edges| - 1][i] == edges[i];
      }
    }
  }

  method LiftEdges(c: Cluster, edges: seq<Edge>, owner: map<Str, nat>) returns (links: seq<Link>)
    requires forall name :: Lookup(owner, name) == Owner(c, name)
    ensures links == EdgeLinks(c, edges)
  {
    links := [];
    for i := 0 to |edges|
      invariant links == EdgeLinks(c, edges[..i])
    {
      assert edges[..i + 1][..i] == edges[..i];
      var e := edges[i];
      assert Lookup(owner, e.from) == Owner(c, e.from) && Lookup(owner, e.to) == Owner(c, e.to);
      if e.from in owner && e.to in owner && owner[e.from] != owner[e.to] {
        links := links + [Link(owner[e.from], owner[e.to])];
      }
    }
    assert edges[..|edges|] == edges;
  }

  // The links a child's own dependencies lift to.
  method LiftDeps(c: Cluster, j: nat, owner: map<Str, nat>) returns (links: seq<Link>)
    requires j < |c.children| && forall name :: Lookup(owner, name) == Owner(c, name)
    ensures links == DepLinks(c, j, c.children[j].deps)
  {
    links := [];
    var u: nat, deps := |c.nodes| + j, c.children[j].deps;
    for i := 0 to |deps|
      invariant links == DepLinks(c, j, deps[..i])
    {
      assert deps[..i + 1][..i] == deps[..i];
      var du := Lookup(owner, deps[i]);
      if du.None? {
        du := LastGroup(c, deps[i], |c.children|);
      }
      assert du == DepUnit(c, deps[i]);
      if du.Some? && du.value != u {
        links := links + [Link(du.value, u)];
      }
    }
    assert deps[..|deps|] == deps;
  }

  lemma LinksLift(c: Cluster, edges: seq<Edge>)
    ensures Lifted(c, edges, Links(c, edges))
  {
    EdgesAreLinks(c, edges);
    forall i | 0 <= i < |edges| && Crosses(c, edges[i]) ensures LinkFor(c, edges[i]) in Links(c, edges) {
      assert LinkFor(c, edges[i]) in EdgeLinks(c, edges);
    }
  }

  method LiftGroups(c: Cluster, owner: map<Str, nat>) returns (links: seq<Link>)
    requires forall name :: Lookup(owner, name) == Owner(c, name)
    ensures links == GroupLinks(c, |c.children|)
  {
    links := [];
    for j := 0 to |c.children|
      invariant links == GroupLinks(c, j)
    {
      var more := LiftDeps(c, j, owner);
      links := links + more;
    }
  }

  method LiftLinks(c: Cluster, edges: seq<Edge>) returns (links: seq<Link>)
    ensures links == Links(c, edges) && Lifted(c, edges, links)
  {
    var owner := BuildOwners(c);
    var ofEdges := LiftEdges(c, edges, owner);
    var ofGroups := LiftGroups(c, owner);
    links := ofEdges + ofGroups;
    LinksLift(c, edges);
  }

  // ---- one cluster -----------------------------------------------------------------------------------

  predicate KeyedLike(c: Cluster, l: Laid) {
    && l.key == c.key && |l.children| == |c.children|
    && forall j | 0 <= j < |c.children| :: l.children[j].key == c.children[j].key
  }

  // The rectangle of a unit in its cluster's own coordinates.
  function UnitRect(c: Cluster, l: Laid, nodeW: real, u: nat): Rect
    requires KeyedLike(c, l) && u < UnitCount(c)
  {
    if u < |c.nodes| then
      if c.nodes[u] in l.local then At(l.local[c.nodes[u]], Size(nodeW, NODE_H)) else Rect(0.0, 0.0, nodeW, NODE_H)
    else
      var ch := l.children[u - |c.nodes|];
      if ch.key in l.unitPos then At(l.unitPos[ch.key], Size(ch.w, ch.h)) else Rect(0.0, 0.0, ch.w, ch.h)
  }

  // The units of one cluster lie inside it, apart from each other, and in an
  // acyclic unit graph every link goes strictly left to right.
  ghost predicate Arranged(c: Cluster, l: Laid, edges: seq<Edge>, nodeW: real) {
    && KeyedLike(c, l) && l.w >= 0.0 && l.h >= 0.0
    && (forall n | n in c.nodes :: n in l.local) && (forall n | n in l.local :: n in c.nodes)
    && (forall j | 0 <= j < |c.children| :: c.children[j].key in l.unitPos)
    && (forall u | 0 <= u < UnitCount(c) :: Within(UnitRect(c, l, nodeW, u), Rect(0.0, 0.0, l.w, l.h)))
    && (forall u, v | 0 <= u < v < UnitCount(c) :: Apart(UnitRect(c, l, nodeW, u), UnitRect(c, l, nodeW, v)))
    && ((exists rank :: Ranked(Links(c, edges), rank, UnitCount(c))) ==>
        forall k | 0 <= k < |Links(c, edges)| :: InRange(Links(c, edges), UnitCount(c)) &&
          UnitRect(c, l, nodeW, Links(c, edges)[k].from).x + UnitRect(c, l, nodeW, Links(c, edges)[k].from).w
          < UnitRect(c, l, nodeW, Links(c, edges)[k].to).x)
  }

  // And so do those of every cluster in it.
  ghost predicate Tidy(c: Cluster, l: Laid, edges: seq<Edge>, nodeW: real)
    decreases c
  {
    Arranged(c, l, edges, nodeW) && forall j | 0 <= j < |c.children| :: Tidy(c.children[j], l.children[j], edges, nodeW)
  }

  // The frame around the content of a box, and what it leaves free above it.
  function FrameX(root: bool): real {
    if root then 28.0 else 16.0
  }

  function FrameTop(root: bool): real {
    if root then 24.0 else 12.0 + 18.0
  }

  function FrameBottom(root: bool): real {
    if root then 24.0 else 12.0
  }

  // The box of a cluster with units is its units and the frame around them.
  ghost predicate Framed(c: Cluster, l: Laid, nodeW: real, root: bool) {
    && KeyedLike(c, l)
    && (forall u | 0 <= u < UnitCount(c) ::
          Within(UnitRect(c, l, nodeW, u),
                 Rect(FrameX(root), FrameTop(root), l.w - 2.0 * FrameX(root), l.h - FrameTop(root) - FrameBottom(root))))
    && SidesMet(c, l, nodeW, root)
  }

  // Units meet the frame on all four sides.
  ghost predicate SidesMet(c: Cluster, l: Laid, nodeW: real, root: bool)
    requires KeyedLike(c, l)
  {
    && (exists u :: 0 <= u < UnitCount(c) && UnitRect(c, l, nodeW, u).x == FrameX(root))
    && (exists u :: 0 <= u < UnitCount(c) && UnitRect(c, l, nodeW, u).x + UnitRect(c, l, nodeW, u).w == l.w - FrameX(root))
    && (exists u :: 0 <= u < UnitCount(c) && UnitRect(c, l, nodeW, u).y == FrameTop(root))
    && (exists u :: 0 <= u < UnitCount(c) && UnitRect(c, l, nodeW, u).y + UnitRect(c, l, nodeW, u).h == l.h - FrameBottom(root))
  }

  // And so are those of every cluster in it; an empty cluster has no size.
  ghost predicate Snug(c: Cluster, l: Laid, nodeW: real, root: bool)
    decreases c
  {
    && |l.children| == |c.children|
    && (if UnitCount(c) == 0 then l.w == 0.0 && l.h == 0.0 else Framed(c, l, nodeW, root))
    && forall j | 0 <= j < |c.children| :: Snug(c.children[j], l.children[j], nodeW, false)
  }

  function SizesOf(c: Cluster, laid: seq<Laid>, nodeW: real): (sizes: seq<Size>)
    requires |laid| == |c.children|
    ensures |sizes| == UnitCount(c)
  {
    seq(UnitCount(c), u requires 0 <= u < UnitCount(c) =>
      if u < |c.nodes| then Size(nodeW, NODE_H) else Size(laid[u - |c.nodes|].w, laid[u - |c.nodes|].h))
  }

  predicate HasPos(m: map<Str, Pos>, name: Str, p: Pos, padX: real, padY: real) {
    name in m && m[name] == Pos(p.x + padX, p.y + padY)
  }

  // The units' positions as the two maps, moved in by the padding and the label.
  method Shift(c: Cluster, pos: seq<Pos>, padX: real, padY: real) returns (local: map<Str, Pos>, unitPos: map<Str, Pos>)
    requires |pos| == UnitCount(c)
    requires forall i, j | 0 <= i < j < |c.nodes| :: c.nodes[i] != c.nodes[j]
    requires forall i, j | 0 <= i < j < |c.children| :: c.children[i].key != c.children[j].key
    ensures (forall n :: n in local <==> n in c.nodes)
    ensures forall i | 0 <= i < |c.nodes| :: HasPos(local, c.nodes[i], pos[i], padX, padY)
    ensures forall j | 0 <= j < |c.children| :: HasPos(unitPos, c.children[j].key, pos[|c.nodes| + j], padX, padY)
  {
    local, unitPos := map[], map[];
    for i := 0 to |c.nodes|
      invariant forall n :: n in local <==> n in c.nodes[..i]
      invariant forall k | 0 <= k < i :: HasPos(local, c.nodes[k], pos[k], padX, padY)
    {
      assert c.nodes[..i + 1] == c.nodes[..i] + [c.nodes[i]];
      local := local[c.nodes[i] := Pos(pos[i].x + padX, pos[i].y + padY)];
    }
    assert c.nodes[..|c.nodes|] == c.nodes;
    for j := 0 to |c.children|
      invariant forall k | 0 <= k < j :: HasPos(unitPos, c.children[k].key, pos[|c.nodes| + k], padX, padY)
    {
      unitPos := unitPos[c.children[j].key := Pos(pos[|c.nodes| + j].x + padX, pos[|c.nodes| + j].y + padY)];
    }
  }

  predicate ShiftedTo(r: Rect, p: Pos, s: Size, padX: real, padY: real) {
    r == Rect(p.x + padX, p.y + padY, s.w, s.h)
  }

  // Every unit is at its position in the content, within the frame.
  ghost predicate AllShifted(c: Cluster, l: Laid, nodeW: real, pos: seq<Pos>, sizes: seq<Size>, padX: real, padTop: real)
    requires KeyedLike(c, l) && |pos| == |sizes| == UnitCount(c)
  {
    forall u | 0 <= u < UnitCount(c) :: ShiftedTo(UnitRect(c, l, nodeW, u), pos[u], sizes[u], padX, padTop)
  }

  // What the columns guarantee of positions holds of the rectangles they become.
  lemma ArrangedFrom(c: Cluster, l: Laid, edges: seq<Edge>, nodeW: real, cols: Columns, pos: seq<Pos>, level: map<nat, nat>,
                     padX: real, padTop: real, padBottom: real)
    requires KeyedLike(c, l) && padX >= 0.0 && padTop >= 0.0 && padBottom >= 0.0
    requires (forall n :: n in l.local <==> n in c.nodes) && forall j | 0 <= j < |c.children| :: c.children[j].key in l.unitPos
    requires ValidColumns(cols) && Placed(cols, pos) && |cols.sizes| == UnitCount(c)
    requires forall u | 0 <= u < UnitCount(c) :: cols.lv[u] == LevelOf(level, u)
    requires AllShifted(c, l, nodeW, pos, cols.sizes, padX, padTop)
    requires l.w == ContentW(cols) + 2.0 * padX && l.h == ContentH(cols) + padTop + padBottom
    requires (exists rank :: Ranked(Links(c, edges), rank, UnitCount(c))) ==>
      forall k | 0 <= k < |Links(c, edges)| :: LevelOf(level, Links(c, edges)[k].from) < LevelOf(level, Links(c, edges)[k].to)
    ensures Arranged(c, l, edges, nodeW)
  {
    forall u | 0 <= u < UnitCount(c) ensures Within(UnitRect(c, l, nodeW, u), Rect(0.0, 0.0, l.w, l.h)) {
      assert ShiftedTo(UnitRect(c, l, nodeW, u), pos[u], cols.sizes[u], padX, padTop);
      UnitInside(cols, pos, u);
    }
    forall u, v | 0 <= u < v < UnitCount(c) ensures Apart(UnitRect(c, l, nodeW, u), UnitRect(c, l, nodeW, v)) {
      assert ShiftedTo(UnitRect(c, l, nodeW, u), pos[u], cols.sizes[u], padX, padTop);
      assert ShiftedTo(UnitRect(c, l, nodeW, v), pos[v], cols.sizes[v], padX, padTop);
      UnitsApart(cols, pos, u, v);
    }
    LinksInRange(c, edges);
    if exists rank :: Ranked(Links(c, edges), rank, UnitCount(c)) {
      forall k | 0 <= k < |Links(c, edges)|
        ensures UnitRect(c, l, nodeW, Links(c, edges)[k].from).x + UnitRect(c, l, nodeW, Links(c, edges)[k].from).w
          < UnitRect(c, l, nodeW, Links(c, edges)[k].to).x
      {
        var u, v := Links(c, edges)[k].from, Links(c, edges)[k].to;
        assert ShiftedTo(UnitRect(c, l, nodeW, u), pos[u], cols.sizes[u], padX, padTop);
        assert ShiftedTo(UnitRect(c, l, nodeW, v), pos[v], cols.sizes[v], padX, padTop);
        UnitsLeftToRight(cols, pos, u, v);
      }
    }
    ContentPositive(cols);
  }

  lemma {:induction false} LowestIsZero(links: seq<Link>, n: nat, level: map<nat, nat>, u: nat) returns (v: nat)
    requires InRange(links, n) && u < n && OnDemand(links, level)
    ensures v < n && LevelOf(level, v) == 0
    decreases LevelOf(level, u)
  {
    if LevelOf(level, u) == 0 {
      v := u;
    } else {
      var k :| 0 <= k < |links| && links[k].to == u && LevelOf(level, links[k].from) + 1 == LevelOf(level, u);
      v := LowestIsZero(links, n, level, links[k].from);
    }
  }

  lemma ShiftedWithin(r: Rect, p: Pos, s: Size, padX: real, padY: real, w: real, h: real)
    requires ShiftedTo(r, p, s, padX, padY) && Within(At(p, s), Rect(0.0, 0.0, w, h))
    ensures Within(r, Rect(padX, padY, w, h))
  {
  }

  lemma SidesTouched(c: Cluster, l: Laid, nodeW: real, root: bool, cols: Columns, pos: seq<Pos>)
    requires KeyedLike(c, l) && ValidColumns(cols) && |pos| == |cols.sizes| == UnitCount(c)
    requires TouchesSides(cols.sizes, pos, ContentW(cols), ContentH(cols))
    requires AllShifted(c, l, nodeW, pos, cols.sizes, FrameX(root), FrameTop(root))
    requires l.w == ContentW(cols) + 2.0 * FrameX(root) && l.h == ContentH(cols) + FrameTop(root) + FrameBottom(root)
    ensures SidesMet(c, l, nodeW, root)
  {
    var a :| 0 <= a < |pos| && pos[a].x == 0.0;
    var b :| 0 <= b < |pos| && pos[b].x + cols.sizes[b].w == ContentW(cols);
    var d :| 0 <= d < |pos| && pos[d].y == 0.0;
    var e :| 0 <= e < |pos| && pos[e].y + cols.sizes[e].h == ContentH(cols);
    assert ShiftedTo(UnitRect(c, l, nodeW, a), pos[a], cols.sizes[a], FrameX(root), FrameTop(root));
    assert ShiftedTo(UnitRect(c, l, nodeW, b), pos[b], cols.sizes[b], FrameX(root), FrameTop(root));
    assert ShiftedTo(UnitRect(c, l, nodeW, d), pos[d], cols.sizes[d], FrameX(root), FrameTop(root));
    assert ShiftedTo(UnitRect(c, l, nodeW, e), pos[e], cols.sizes[e], FrameX(root), FrameTop(root));
  }

  lemma FramedFrom(c: Cluster, l: Laid, nodeW: real, root: bool, cols: Columns, pos: seq<Pos>)
    requires KeyedLike(c, l) && ValidColumns(cols) && Placed(cols, pos) && |cols.sizes| == UnitCount(c)
    requires TouchesSides(cols.sizes, pos, ContentW(cols), ContentH(cols))
    requires AllShifted(c, l, nodeW, pos, cols.sizes, FrameX(root), FrameTop(root))
    requires l.w == ContentW(cols) + 2.0 * FrameX(root) && l.h == ContentH(cols) + FrameTop(root) + FrameBottom(root)
    ensures Framed(c, l, nodeW, root)
  {
    forall u | 0 <= u < UnitCount(c)
      ensures Within(UnitRect(c, l, nodeW, u),
                     Rect(FrameX(root), FrameTop(root), l.w - 2.0 * FrameX(root), l.h - FrameTop(root) - FrameBottom(root)))
    {
      UnitInside(cols, pos, u);
      ShiftedWithin(UnitRect(c, l, nodeW, u), pos[u], cols.sizes[u], FrameX(root), FrameTop(root), ContentW(cols), ContentH(cols));
    }
    SidesTouched(c, l, nodeW, root, cols, pos);
  }

  lemma ContentPositive(cols: Columns)
    requires ValidColumns(cols)
    ensures ContentW(cols) >= 0.0 && ContentH(cols) >= 0.0
  {
  }

  lemma RectsShifted(c: Cluster, l: Laid, nodeW: real, pos: seq<Pos>, padX: real, padTop: real)
    requires KeyedLike(c, l) && |pos| == UnitCount(c)
    requires forall i | 0 <= i < |c.nodes| :: HasPos(l.local, c.nodes[i], pos[i], padX, padTop)
    requires forall j | 0 <= j < |c.children| :: HasPos(l.unitPos, c.children[j].key, pos[|c.nodes| + j], padX, padTop)
    ensures AllShifted(c, l, nodeW, pos, SizesOf(c, l.children, nodeW), padX, padTop)
  {
    forall u | 0 <= u < UnitCount(c)
      ensures ShiftedTo(UnitRect(c, l, nodeW, u), pos[u], SizesOf(c, l.children, nodeW)[u], padX, padTop)
    {
      if u < |c.nodes| {
        assert HasPos(l.local, c.nodes[u], pos[u], padX, padTop);
      } else {
        var j := u - |c.nodes|;
        assert HasPos(l.unitPos, c.children[j].key, pos[|c.nodes| + j], padX, padTop);
      }
    }
  }

  lemma UnitsAreFramed(c: Cluster, l: Laid, links: seq<Link>, nodeW: real, root: bool, cols: Columns, pos: seq<Pos>, level: map<nat, nat>)
    requires UnitCount(c) > 0 && InRange(links, UnitCount(c)) && OnDemand(links, level)
    requires KeyedLike(c, l) && ValidColumns(cols) && Placed(cols, pos) && |cols.sizes| == UnitCount(c)
    requires (forall u | 0 <= u < UnitCount(c) :: cols.lv[u] == LevelOf(level, u)) && TopHasUnits(cols)
    requires AllShifted(c, l, nodeW, pos, cols.sizes, FrameX(root), FrameTop(root))
    requires l.w == ContentW(cols) + 2.0 * FrameX(root) && l.h == ContentH(cols) + FrameTop(root) + FrameBottom(root)
    ensures Framed(c, l, nodeW, root)
  {
    var lowest := LowestIsZero(links, UnitCount(c), level, 0);
    ContentIsSnug(cols, pos, lowest);
    FramedFrom(c, l, nodeW, root, cols, pos);
  }

  // Children first, each on its own; then this cluster's units around them.
  method LayoutCluster(c: Cluster, edges: seq<Edge>, nodeW: real, root: bool) returns (l: Laid)
    requires nodeW >= 0.0 && Distinct(c)
    ensures Tidy(c, l, edges, nodeW) && Snug(c, l, nodeW, root)
    decreases c
  {
    var laid := [];
    for j := 0 to |c.children|
      invariant |laid| == j && forall k | 0 <= k < j :: Tidy(c.children[k], laid[k], edges, nodeW) && Snug(c.children[k], laid[k], nodeW, false)
    {
      assert Distinct(c.children[j]);
      var child := LayoutCluster(c.children[j], edges, nodeW, false);
      laid := laid + [child];
    }
    if |c.nodes| == 0 && |c.children| == 0 {
      l := Laid(c.key, 0.0, 0.0, map[], map[], laid);
      LinksInRange(c, edges);
      return;
    }
    l := ArrangeUnits(c, laid, edges, nodeW, root);
  }

  lemma KeysDiffer(c: Cluster)
    requires Distinct(c)
    ensures forall i, j | 0 <= i < j < |c.children| :: c.children[i].key != c.children[j].key
  {
    forall i: nat, j: nat | i < j < |c.children| ensures c.children[i].key != c.children[j].key {
      assert Unrelated(c, i, j);
    }
  }

  method ArrangeUnits(c: Cluster, laid: seq<Laid>, edges: seq<Edge>, nodeW: real, root: bool) returns (l: Laid)
    requires nodeW >= 0.0 && Distinct(c) && |laid| == |c.children|
    requires forall j | 0 <= j < |laid| :: laid[j].key == c.children[j].key && laid[j].w >= 0.0 && laid[j].h >= 0.0
    requires UnitCount(c) > 0
    ensures Arranged(c, l, edges, nodeW) && Framed(c, l, nodeW, root) && l.children == laid
  {
    var links := LiftLinks(c, edges);
    LinksInRange(c, edges);
    KeysDiffer(c);
    var level := Levels(UnitCount(c), links);
    var sizes := SizesOf(c, laid, nodeW);
    var pos, contentW, contentH, cols := PlaceUnits(sizes, level);
    var padX, padY, labelH := PAD_X, PAD_Y, 0.0;
    if !root {
      padX, padY, labelH := CLUSTER_PAD_X, CLUSTER_PAD_Y, CLUSTER_LABEL_H;
    }
    var local, unitPos := Shift(c, pos, padX, padY + labelH);
    l := Laid(c.key, contentW + 2.0 * padX, contentH + 2.0 * padY + labelH, local, unitPos, laid);
    RectsShifted(c, l, nodeW, pos, padX, padY + labelH);
    ArrangedFrom(c, l, edges, nodeW, cols, pos, level, padX, padY + labelH, padY);
    UnitsAreFramed(c, l, links, nodeW, root, cols, pos, level);
  }

  // ---- absolute coordinates -----------------------------------------------------------------------

  datatype Drawing = Drawing(pos: map<Str, Pos>, boxes: map<Str, Rect>)

  function OffsetOf(l: Laid, j: nat): Pos
    requires j < |l.children|
  {
    if l.children[j].key in l.unitPos then l.unitPos[l.children[j].key] else Pos(0.0, 0.0)
  }

  // The drawing with this cluster's own nodes and box added.
  function DrawOwn(d: Drawing, l: Laid, dx: real, dy: real): Drawing {
    Drawing(d.pos + map n | n in l.local :: Pos(l.local[n].x + dx, l.local[n].y + dy),
            if l.key != Empty then d.boxes[l.key := Rect(dx, dy, l.w, l.h)] else d.boxes)
  }

  // And then the first m of its children.
  function Draw(d: Drawing, l: Laid, dx: real, dy: real, m: nat): Drawing
    requires m <= |l.children|
    decreases l, m
  {
    if m == 0 then DrawOwn(d, l, dx, dy)
    else
      var ch, p := l.children[m - 1], OffsetOf(l, m - 1);
      Draw(Draw(d, l, dx, dy, m - 1), ch, dx + p.x, dy + p.y, |ch.children|)
  }

  method Absolutize(l: Laid, dx: real, dy: real, d0: Drawing) returns (d: Drawing)
    ensures d == Draw(d0, l, dx, dy, |l.children|)
    decreases l
  {
    d := DrawOwn(d0, l, dx, dy);
    for j := 0 to |l.children|
      invariant d == Draw(d0, l, dx, dy, j)
    {
      var p := OffsetOf(l, j);
      d := Absolutize(l.children[j], dx + p.x, dy + p.y, d);
    }
  }

  function Moved(r: Rect, dx: real, dy: real): Rect {
    Rect(r.x + dx, r.y + dy, r.w, r.h)
  }

  // The rectangle a unit has in the finished drawing, if it is there.
  function DrawnAt(c: Cluster, l: Laid, nodeW: real, d: Drawing, u: nat): Option<Rect>
    requires KeyedLike(c, l) && u < UnitCount(c)
  {
    if u < |c.nodes| then
      if c.nodes[u] in d.pos then Some(At(d.pos[c.nodes[u]], Size(nodeW, NODE_H))) else None
    else
      var key := c.children[u - |c.nodes|].key;
      if key in d.boxes then Some(d.boxes[key]) else None
  }

  predicate NodeAt(d: Drawing, name: Str, p: Pos) {
    name in d.pos && d.pos[name] == p
  }

  predicate BoxAt(d: Drawing, key: Str, r: Rect) {
    key in d.boxes && d.boxes[key] == r
  }

  ghost predicate NodesDrawn(c: Cluster, l: Laid, d: Drawing, dx: real, dy: real) {
    forall n {:trigger n in c.nodes} | n in c.nodes :: n in l.local && NodeAt(d, n, Pos(l.local[n].x + dx, l.local[n].y + dy))
  }

  // A child's box is at its offset, and what is in the child is drawn from there.
  ghost predicate ChildDrawn(c: Cluster, l: Laid, d: Drawing, dx: real, dy: real, j: nat)
    requires j < |c.children| == |l.children|
    decreases c, 0
  {
    var x, y := dx + OffsetOf(l, j).x, dy + OffsetOf(l, j).y;
    BoxAt(d, c.children[j].key, Rect(x, y, l.children[j].w, l.children[j].h)) && Drawn(c.children[j], l.children[j], d, x, y)
  }

  // Every node and every box of the tree is drawn where its cluster put it.
  ghost predicate Drawn(c: Cluster, l: Laid, d: Drawing, dx: real, dy: real)
    decreases c, 1
  {
    && |l.children| == |c.children| && NodesDrawn(c, l, d, dx, dy)
    && forall j: nat {:trigger ChildDrawn(c, l, d, dx, dy, j)} | j < |c.children| :: ChildDrawn(c, l, d, dx, dy, j)
  }

  // What is drawn once the first m children are.
  ghost predicate DrawnUpTo(c: Cluster, l: Laid, d: Drawing, dx: real, dy: real, m: nat) {
    && m <= |c.children| == |l.children| && NodesDrawn(c, l, d, dx, dy)
    && forall j: nat {:trigger ChildDrawn(c, l, d, dx, dy, j)} | j < m :: ChildDrawn(c, l, d, dx, dy, j)
  }

  // The drawings agree outside some names.
  ghost predicate SameBut(d: Drawing, d1: Drawing, names: set<Str>, keys: set<Str>) {
    d1.pos - names == d.pos - names && d1.boxes - keys == d.boxes - keys
  }

  lemma SameButBoth(d: Drawing, d1: Drawing, d2: Drawing, names: set<Str>, keys: set<Str>, names1: set<Str>, keys1: set<Str>)
    requires SameBut(d, d1, names, keys) && SameBut(d1, d2, names1, keys1) && names1 <= names && keys1 <= keys
    ensures SameBut(d, d2, names, keys)
  {
    SubtractMore(d1.pos, d2.pos, names1, names);
    SubtractMore(d1.boxes, d2.boxes, keys1, keys);
  }

  lemma SubtractMore<V>(m: map<Str, V>, m1: map<Str, V>, some: set<Str>, all: set<Str>)
    requires m - some == m1 - some && some <= all
    ensures m - all == m1 - all
  {
    assert m - all == (m - some) - all && m1 - all == (m1 - some) - all;
  }

  lemma SubtractKeeps<V>(m: map<Str, V>, m1: map<Str, V>, some: set<Str>, k: Str)
    requires m - some == m1 - some && k !in some
    ensures (k in m <==> k in m1) && (k in m ==> m[k] == m1[k])
  {
    assert k in m - some <==> k in m;
    assert k in m1 - some <==> k in m1;
  }

  function AllKeys(c: Cluster): set<Str> {
    KeysOf(c) + {c.key}
  }

  lemma ChildNames(c: Cluster, j: nat)
    requires j < |c.children|
    ensures NodesOf(c.children[j]) <= NodesOf(c) && AllKeys(c.children[j]) <= KeysOf(c)
  {
    assert c.children[j] in c.children;
  }

  // A layout of this very tree.
  ghost predicate Shaped(c: Cluster, l: Laid)
    decreases c
  {
    && KeyedLike(c, l) && (forall n | n in l.local :: n in c.nodes)
    && forall j {:trigger Shaped(c.children[j], l.children[j])} | 0 <= j < |c.children| :: Shaped(c.children[j], l.children[j])
  }

  lemma {:induction false} TidyIsShaped(c: Cluster, l: Laid, edges: seq<Edge>, nodeW: real)
    requires Tidy(c, l, edges, nodeW)
    ensures Shaped(c, l)
    decreases c
  {
    forall j | 0 <= j < |c.children| ensures Shaped(c.children[j], l.children[j]) {
      TidyIsShaped(c.children[j], l.children[j], edges, nodeW);
    }
  }

  function NodesBelow(c: Cluster): set<Str> {
    set ch, n | ch in c.children && n in NodesOf(ch) :: n
  }

  lemma OwnFrame(d: Drawing, c: Cluster, l: Laid, dx: real, dy: real)
    requires Shaped(c, l)
    ensures SameBut(d, DrawOwn(d, l, dx, dy), NodesOf(c), AllKeys(c))
  {
    assert forall n | n in l.local :: n in NodesOf(c);
  }

  lemma ChildFrame(own: Drawing, mid: Drawing, end: Drawing, c: Cluster, j: nat)
    requires j < |c.children| && SameBut(own, mid, NodesBelow(c), KeysOf(c))
    requires SameBut(mid, end, NodesOf(c.children[j]), AllKeys(c.children[j]))
    ensures SameBut(own, end, NodesBelow(c), KeysOf(c))
  {
    ChildNames(c, j);
    SameButBoth(own, mid, end, NodesBelow(c), KeysOf(c), NodesOf(c.children[j]), AllKeys(c.children[j]));
  }

  // Drawing a cluster changes nothing but its own names, and once its own nodes and
  // box are drawn, nothing but the names below it.
  lemma {:induction false} DrawFrame(d: Drawing, c: Cluster, l: Laid, dx: real, dy: real, m: nat)
    requires Shaped(c, l) && m <= |l.children|
    ensures SameBut(DrawOwn(d, l, dx, dy), Draw(d, l, dx, dy, m), NodesBelow(c), KeysOf(c))
    ensures SameBut(d, Draw(d, l, dx, dy, m), NodesOf(c), AllKeys(c))
    decreases c, m
  {
    if m > 0 {
      var mid := Draw(d, l, dx, dy, m - 1);
      DrawFrame(d, c, l, dx, dy, m - 1);
      NextFrame(mid, c, l, dx, dy, m - 1);
      ChildFrame(DrawOwn(d, l, dx, dy), mid, Draw(d, l, dx, dy, m), c, m - 1);
    }
    WholeFrame(d, c, l, dx, dy, Draw(d, l, dx, dy, m));
  }

  lemma {:induction false} NextFrame(mid: Drawing, c: Cluster, l: Laid, dx: real, dy: real, j: nat)
    requires Shaped(c, l) && j < |l.children|
    ensures var ch, p := l.children[j], OffsetOf(l, j);
      SameBut(mid, Draw(mid, ch, dx + p.x, dy + p.y, |ch.children|), NodesOf(c.children[j]), AllKeys(c.children[j]))
    decreases c, 0
  {
    var ch, p := l.children[j], OffsetOf(l, j);
    assert Shaped(c.children[j], ch);
    DrawFrame(mid, c.children[j], ch, dx + p.x, dy + p.y, |ch.children|);
  }

  lemma WholeFrame(d: Drawing, c: Cluster, l: Laid, dx: real, dy: real, end: Drawing)
    requires Shaped(c, l) && SameBut(DrawOwn(d, l, dx, dy), end, NodesBelow(c), KeysOf(c))
    ensures SameBut(d, end, NodesOf(c), AllKeys(c))
  {
    OwnFrame(d, c, l, dx, dy);
    SameButBoth(d, DrawOwn(d, l, dx, dy), end, NodesOf(c), AllKeys(c), NodesBelow(c), KeysOf(c));
  }

  lemma NodesStay(c: Cluster, l: Laid, d: Drawing, d1: Drawing, dx: real, dy: real, names: set<Str>, keys: set<Str>)
    requires NodesDrawn(c, l, d, dx, dy) && SameBut(d, d1, names, keys) && forall n | n in c.nodes :: n !in names
    ensures NodesDrawn(c, l, d1, dx, dy)
  {
    forall n | n in c.nodes ensures NodeAt(d1, n, Pos(l.local[n].x + dx, l.local[n].y + dy)) {
      SubtractKeeps(d.pos, d1.pos, names, n);
    }
  }

  // A drawn cluster stays drawn while only other names change.
  lemma {:induction false} StaysDrawn(c: Cluster, l: Laid, d: Drawing, d1: Drawing, dx: real, dy: real, names: set<Str>, keys: set<Str>)
    requires Drawn(c, l, d, dx, dy) && SameBut(d, d1, names, keys) && names !! NodesOf(c) && keys !! KeysOf(c)
    ensures Drawn(c, l, d1, dx, dy)
    decreases c
  {
    NodesStay(c, l, d, d1, dx, dy, names, keys);
    forall j: nat | j < |c.children| ensures ChildDrawn(c, l, d1, dx, dy, j) {
      assert ChildDrawn(c, l, d, dx, dy, j);
      ChildNames(c, j);
      assert c.children[j].key in AllKeys(c.children[j]);
      SubtractKeeps(d.boxes, d1.boxes, keys, c.children[j].key);
      StaysDrawn(c.children[j], l.children[j], d, d1, dx + OffsetOf(l, j).x, dy + OffsetOf(l, j).y, names, keys);
    }
  }

  // The names of child m are its own.
  ghost predicate Separate(c: Cluster, m: nat) {
    && m < |c.children|
    && (forall n | n in c.nodes :: n !in NodesOf(c.children[m]))
    && (forall j | 0 <= j < m :: c.children[j].key !in AllKeys(c.children[m]))
    && (forall j | 0 <= j < m :: NodesOf(c.children[m]) !! NodesOf(c.children[j]) && AllKeys(c.children[m]) !! KeysOf(c.children[j]))
  }

  lemma DistinctIsSeparate(c: Cluster, m: nat)
    requires Distinct(c) && m < |c.children|
    ensures Separate(c, m)
  {
    assert NotInChild(c, m);
    forall j: nat | j < m
      ensures c.children[j].key !in AllKeys(c.children[m])
      ensures NodesOf(c.children[m]) !! NodesOf(c.children[j]) && AllKeys(c.children[m]) !! KeysOf(c.children[j])
    {
      assert Unrelated(c, j, m);
    }
  }

  // A child's drawing leaves its siblings and its parent's nodes as they are.
  lemma SiblingsStay(c: Cluster, l: Laid, mid: Drawing, end: Drawing, dx: real, dy: real, m: nat)
    requires Separate(c, m) && DrawnUpTo(c, l, mid, dx, dy, m)
    requires SameBut(mid, end, NodesOf(c.children[m]), AllKeys(c.children[m]))
    ensures DrawnUpTo(c, l, end, dx, dy, m)
  {
    var names, keys := NodesOf(c.children[m]), AllKeys(c.children[m]);
    NodesStay(c, l, mid, end, dx, dy, names, keys);
    forall j: nat | j < m ensures ChildDrawn(c, l, end, dx, dy, j) {
      assert ChildDrawn(c, l, mid, dx, dy, j);
      SubtractKeeps(mid.boxes, end.boxes, keys, c.children[j].key);
      StaysDrawn(c.children[j], l.children[j], mid, end, dx + OffsetOf(l, j).x, dy + OffsetOf(l, j).y, names, keys);
    }
  }

  // A cluster's own box stays where it was drawn.
  lemma BoxDrawn(d: Drawing, c: Cluster, l: Laid, dx: real, dy: real)
    requires Shaped(c, l) && c.key != Empty && c.key !in KeysOf(c)
    ensures BoxAt(Draw(d, l, dx, dy, |l.children|), c.key, Rect(dx, dy, l.w, l.h))
  {
    var own, d1 := DrawOwn(d, l, dx, dy), Draw(d, l, dx, dy, |l.children|);
    DrawFrame(d, c, l, dx, dy, |l.children|);
    SubtractKeeps(own.boxes, d1.boxes, KeysOf(c), c.key);
  }

  ghost predicate Located(c: Cluster, l: Laid)
    decreases c
  {
    && Shaped(c, l) && (forall n | n in c.nodes :: n in l.local)
    && forall j {:trigger Located(c.children[j], l.children[j])} | 0 <= j < |c.children| ::
         c.children[j].key in l.unitPos && Located(c.children[j], l.children[j])
  }

  lemma {:induction false} TidyIsLocated(c: Cluster, l: Laid, edges: seq<Edge>, nodeW: real)
    requires Tidy(c, l, edges, nodeW)
    ensures Located(c, l)
    decreases c
  {
    TidyIsShaped(c, l, edges, nodeW);
    forall j | 0 <= j < |c.children| ensures Located(c.children[j], l.children[j]) {
      TidyIsLocated(c.children[j], l.children[j], edges, nodeW);
    }
  }

  lemma OwnDrawn(d: Drawing, c: Cluster, l: Laid, dx: real, dy: real)
    requires Located(c, l)
    ensures DrawnUpTo(c, l, DrawOwn(d, l, dx, dy), dx, dy, 0)
  {
  }

  lemma ChildFacts(c: Cluster, l: Laid, j: nat)
    requires Located(c, l) && Distinct(c) && j < |c.children|
    ensures |l.children| == |c.children| && Located(c.children[j], l.children[j]) && Distinct(c.children[j])
    ensures c.children[j].key != Empty && c.children[j].key !in KeysOf(c.children[j])
    ensures Separate(c, j)
  {
    assert c.children[j] in c.children && Distinct(c.children[j]) && Unrelated(c, j, j);
    assert Located(c.children[j], l.children[j]);
    DistinctIsSeparate(c, j);
  }

  // One child's drawing, after what was drawn before it.
  lemma OneMoreChild(c: Cluster, l: Laid, mid: Drawing, end: Drawing, dx: real, dy: real, x: real, y: real, j: nat)
    requires Separate(c, j) && DrawnUpTo(c, l, mid, dx, dy, j) && x == dx + OffsetOf(l, j).x && y == dy + OffsetOf(l, j).y
    requires SameBut(mid, end, NodesOf(c.children[j]), AllKeys(c.children[j]))
    requires BoxAt(end, c.children[j].key, Rect(x, y, l.children[j].w, l.children[j].h)) && Drawn(c.children[j], l.children[j], end, x, y)
    ensures DrawnUpTo(c, l, end, dx, dy, j + 1)
  {
    SiblingsStay(c, l, mid, end, dx, dy, j);
    assert ChildDrawn(c, l, end, dx, dy, j);
  }

  // What one child's drawing does, whatever was drawn before it.
  lemma ChildEffect(c: Cluster, l: Laid, mid: Drawing, end: Drawing, x: real, y: real, j: nat)
    requires Located(c, l) && Distinct(c) && j < |c.children| == |l.children|
    requires end == Draw(mid, l.children[j], x, y, |l.children[j].children|)
    ensures SameBut(mid, end, NodesOf(c.children[j]), AllKeys(c.children[j]))
    ensures BoxAt(end, c.children[j].key, Rect(x, y, l.children[j].w, l.children[j].h))
  {
    ChildFacts(c, l, j);
    DrawFrame(mid, c.children[j], l.children[j], x, y, |l.children[j].children|);
    BoxDrawn(mid, c.children[j], l.children[j], x, y);
  }

  // The last child drawn, given that its own contents are.
  lemma LastChild(c: Cluster, l: Laid, mid: Drawing, end: Drawing, dx: real, dy: real, j: nat)
    requires Located(c, l) && Distinct(c) && j < |c.children| == |l.children| && DrawnUpTo(c, l, mid, dx, dy, j)
    requires end == Draw(mid, l.children[j], dx + OffsetOf(l, j).x, dy + OffsetOf(l, j).y, |l.children[j].children|)
    requires Drawn(c.children[j], l.children[j], end, dx + OffsetOf(l, j).x, dy + OffsetOf(l, j).y)
    ensures DrawnUpTo(c, l, end, dx, dy, j + 1)
  {
    var x, y := dx + OffsetOf(l, j).x, dy + OffsetOf(l, j).y;
    ChildFacts(c, l, j);
    ChildEffect(c, l, mid, end, x, y, j);
    OneMoreChild(c, l, mid, end, dx, dy, x, y, j);
  }

  lemma AllDrawn(c: Cluster, l: Laid, d: Drawing, dx: real, dy: real)
    requires DrawnUpTo(c, l, d, dx, dy, |c.children|)
    ensures Drawn(c, l, d, dx, dy)
  {
  }

  lemma {:induction false} DrawDraws(d: Drawing, c: Cluster, l: Laid, dx: real, dy: real, m: nat)
    requires Located(c, l) && Distinct(c) && m <= |c.children| == |l.children|
    ensures DrawnUpTo(c, l, Draw(d, l, dx, dy, m), dx, dy, m)
    decreases c, m, 1
  {
    if m == 0 {
      OwnDrawn(d, c, l, dx, dy);
    } else {
      var mid := Draw(d, l, dx, dy, m - 1);
      DrawDraws(d, c, l, dx, dy, m - 1);
      NextDraws(mid, c, l, dx, dy, m - 1);
    }
  }

  lemma {:induction false} NextDraws(mid: Drawing, c: Cluster, l: Laid, dx: real, dy: real, j: nat)
    requires Located(c, l) && Distinct(c) && j < |c.children| == |l.children| && DrawnUpTo(c, l, mid, dx, dy, j)
    ensures DrawnUpTo(c, l, Draw(mid, l.children[j], dx + OffsetOf(l, j).x, dy + OffsetOf(l, j).y, |l.children[j].children|), dx, dy, j + 1)
    decreases c, 0, 1
  {
    var x, y := dx + OffsetOf(l, j).x, dy + OffsetOf(l, j).y;
    ChildDraws(mid, c, l, x, y, j);
    LastChild(c, l, mid, Draw(mid, l.children[j], x, y, |l.children[j].children|), dx, dy, j);
  }

  lemma {:induction false} ChildDraws(d: Drawing, c: Cluster, l: Laid, x: real, y: real, j: nat)
    requires Located(c, l) && Distinct(c) && j < |c.children| == |l.children|
    ensures Drawn(c.children[j], l.children[j], Draw(d, l.children[j], x, y, |l.children[j].children|), x, y)
    decreases c, 0, 0
  {
    ChildFacts(c, l, j);
    assert |c.children[j].children| == |l.children[j].children|;
    DrawDraws(d, c.children[j], l.children[j], x, y, |c.children[j].children|);
    AllDrawn(c.children[j], l.children[j], Draw(d, l.children[j], x, y, |l.children[j].children|), x, y);
  }

  // ---- the drawing ------------------------------------------------------------------------------------

  // A cluster's units lie inside its box and apart from each other, and if its unit
  // graph is acyclic every lifted edge goes left to right.
  ghost predicate InBox(c: Cluster, l: Laid, edges: seq<Edge>, nodeW: real, d: Drawing, dx: real, dy: real) {
    && KeyedLike(c, l)
    && (forall u | 0 <= u < UnitCount(c) :: DrawnAt(c, l, nodeW, d, u).Some? && Within(DrawnAt(c, l, nodeW, d, u).value, Rect(dx, dy, l.w, l.h)))
    && (forall u, v | 0 <= u < v < UnitCount(c) ::
          DrawnAt(c, l, nodeW, d, u).Some? && DrawnAt(c, l, nodeW, d, v).Some?
          && Apart(DrawnAt(c, l, nodeW, d, u).value, DrawnAt(c, l, nodeW, d, v).value))
    && ((exists rank :: Ranked(Links(c, edges), rank, UnitCount(c))) ==>
        forall k | 0 <= k < |Links(c, edges)| :: LeftOf(c, l, nodeW, d, Links(c, edges)[k]))
  }

  // And so for every cluster of the tree.
  ghost predicate Nested(c: Cluster, l: Laid, edges: seq<Edge>, nodeW: real, d: Drawing, dx: real, dy: real)
    decreases c
  {
    && InBox(c, l, edges, nodeW, d, dx, dy)
    && forall j | 0 <= j < |c.children| ::
         Nested(c.children[j], l.children[j], edges, nodeW, d, dx + OffsetOf(l, j).x, dy + OffsetOf(l, j).y)
  }

  predicate LeftOf(c: Cluster, l: Laid, nodeW: real, d: Drawing, k: Link)
    requires KeyedLike(c, l)
  {
    && k.from < UnitCount(c) && k.to < UnitCount(c)
    && DrawnAt(c, l, nodeW, d, k.from).Some? && DrawnAt(c, l, nodeW, d, k.to).Some?
    && DrawnAt(c, l, nodeW, d, k.from).value.x + DrawnAt(c, l, nodeW, d, k.from).value.w < DrawnAt(c, l, nodeW, d, k.to).value.x
  }

  lemma UnitDrawn(c: Cluster, l: Laid, edges: seq<Edge>, nodeW: real, d: Drawing, dx: real, dy: real, u: nat)
    requires Arranged(c, l, edges, nodeW) && Drawn(c, l, d, dx, dy) && u < UnitCount(c)
    ensures DrawnAt(c, l, nodeW, d, u) == Some(Moved(UnitRect(c, l, nodeW, u), dx, dy))
  {
    if u < |c.nodes| {
      assert c.nodes[u] in c.nodes;
    } else {
      assert ChildDrawn(c, l, d, dx, dy, u - |c.nodes|);
    }
  }

  lemma {:induction false} TidyDrawnIsNested(c: Cluster, l: Laid, edges: seq<Edge>, nodeW: real, d: Drawing, dx: real, dy: real)
    requires Tidy(c, l, edges, nodeW) && Drawn(c, l, d, dx, dy)
    ensures Nested(c, l, edges, nodeW, d, dx, dy)
    decreases c
  {
    forall u | 0 <= u < UnitCount(c) ensures DrawnAt(c, l, nodeW, d, u) == Some(Moved(UnitRect(c, l, nodeW, u), dx, dy)) {
      UnitDrawn(c, l, edges, nodeW, d, dx, dy, u);
    }
    ArrangedIsNested(c, l, edges, nodeW, d, dx, dy);
    forall j | 0 <= j < |c.children|
      ensures Nested(c.children[j], l.children[j], edges, nodeW, d, dx + OffsetOf(l, j).x, dy + OffsetOf(l, j).y)
    {
      assert ChildDrawn(c, l, d, dx, dy, j);
      TidyDrawnIsNested(c.children[j], l.children[j], edges, nodeW, d, dx + OffsetOf(l, j).x, dy + OffsetOf(l, j).y);
    }
  }

  lemma ArrangedIsNested(c: Cluster, l: Laid, edges: seq<Edge>, nodeW: real, d: Drawing, dx: real, dy: real)
    requires Arranged(c, l, edges, nodeW)
    requires forall u | 0 <= u < UnitCount(c) :: DrawnAt(c, l, nodeW, d, u) == Some(Moved(UnitRect(c, l, nodeW, u), dx, dy))
    ensures InBox(c, l, edges, nodeW, d, dx, dy)
  {
    forall u | 0 <= u < UnitCount(c) ensures Within(DrawnAt(c, l, nodeW, d, u).value, Rect(dx, dy, l.w, l.h)) {
      assert Within(UnitRect(c, l, nodeW, u), Rect(0.0, 0.0, l.w, l.h));
    }
    forall u, v | 0 <= u < v < UnitCount(c) ensures Apart(DrawnAt(c, l, nodeW, d, u).value, DrawnAt(c, l, nodeW, d, v).value) {
      assert Apart(UnitRect(c, l, nodeW, u), UnitRect(c, l, nodeW, v));
    }
  }

  // ---- edges go left to right ---------------------------------------------------------------------------

  predicate Holds(c: Cluster, u: nat, name: Str)
    requires u < UnitCount(c)
  {
    if u < |c.nodes| then c.nodes[u] == name else name in NodesOf(c.children[u - |c.nodes|])
  }

  lemma {:induction false} LastHolds(c: Cluster, name: Str, m: nat)
    requires m <= |c.children|
    ensures var h := LastHolder(c, name, m);
      if h.Some? then |c.nodes| <= h.value < |c.nodes| + m && name in NodesOf(c.children[h.value - |c.nodes|])
      else forall j | 0 <= j < m :: name !in NodesOf(c.children[j])
  {
    if m > 0 {
      LastHolds(c, name, m - 1);
    }
  }

  lemma {:induction false} LastIs(nodes: seq<Str>, name: Str, m: nat)
    requires m <= |nodes|
    ensures var h := LastNode(nodes, name, m); if h.Some? then h.value < m && nodes[h.value] == name else name !in nodes[..m]
  {
    if m > 0 {
      LastIs(nodes, name, m - 1);
    }
  }

  lemma InSomeChild(c: Cluster, name: Str) returns (j: nat)
    requires name in NodesOf(c) && name !in c.nodes
    ensures j < |c.children| && name in NodesOf(c.children[j])
  {
    var ch :| ch in c.children && name in NodesOf(ch);
    j :| 0 <= j < |c.children| && c.children[j] == ch;
  }

  // A node of the cluster is in the unit that stands for it.
  lemma OwnerHolds(c: Cluster, name: Str)
    requires name in NodesOf(c)
    ensures Owner(c, name).Some? && Owner(c, name).value < UnitCount(c) && Holds(c, Owner(c, name).value, name)
  {
    LastHolds(c, name, |c.children|);
    LastIs(c.nodes, name, |c.nodes|);
    assert c.nodes[..|c.nodes|] == c.nodes;
    if name !in c.nodes {
      var j := InSomeChild(c, name);
    }
  }

  predicate NodeWithin(d: Drawing, nodeW: real, name: Str, r: Rect) {
    name in d.pos && Within(At(d.pos[name], Size(nodeW, NODE_H)), r)
  }

  // A node is drawn inside the unit that holds it, and inside the cluster.
  lemma {:induction false} NodeInUnit(c: Cluster, l: Laid, edges: seq<Edge>, nodeW: real, d: Drawing, dx: real, dy: real, u: nat, name: Str)
    requires Tidy(c, l, edges, nodeW) && Drawn(c, l, d, dx, dy) && u < UnitCount(c) && Holds(c, u, name)
    ensures DrawnAt(c, l, nodeW, d, u).Some? && NodeWithin(d, nodeW, name, DrawnAt(c, l, nodeW, d, u).value)
    ensures Within(DrawnAt(c, l, nodeW, d, u).value, Rect(dx, dy, l.w, l.h))
    decreases c
  {
    UnitDrawn(c, l, edges, nodeW, d, dx, dy, u);
    assert Within(UnitRect(c, l, nodeW, u), Rect(0.0, 0.0, l.w, l.h));
    if u >= |c.nodes| {
      var j := u - |c.nodes|;
      assert ChildDrawn(c, l, d, dx, dy, j);
      OwnerHolds(c.children[j], name);
      NodeInUnit(c.children[j], l.children[j], edges, nodeW, d, dx + OffsetOf(l, j).x, dy + OffsetOf(l, j).y,
                 Owner(c.children[j], name).value, name);
    }
  }

  // Both ends are drawn, the first wholly to the left of the second.
  predicate GoesRight(d: Drawing, nodeW: real, e: Edge) {
    e.from in d.pos && e.to in d.pos && d.pos[e.from].x + nodeW < d.pos[e.to].x
  }

  ghost predicate UnitsAcyclic(c: Cluster, edges: seq<Edge>) {
    exists rank :: Ranked(Links(c, edges), rank, UnitCount(c))
  }

  // In every cluster whose unit graph is acyclic, each edge between two of its units
  // goes from left to right.
  ghost predicate Flows(c: Cluster, edges: seq<Edge>, nodeW: real, d: Drawing)
    decreases c
  {
    && (UnitsAcyclic(c, edges) ==>
          forall i | 0 <= i < |edges| :: edges[i].from in NodesOf(c) && edges[i].to in NodesOf(c) && Crosses(c, edges[i]) ==> GoesRight(d, nodeW, edges[i]))
    && forall ch {:trigger Flows(ch, edges, nodeW, d)} | ch in c.children :: Flows(ch, edges, nodeW, d)
  }

  // Its link is one of the cluster's, and these go left to right.
  lemma UnitsInOrder(c: Cluster, l: Laid, edges: seq<Edge>, nodeW: real, e: Edge)
    requires Arranged(c, l, edges, nodeW) && UnitsAcyclic(c, edges) && e in edges && Crosses(c, e)
    ensures var k := LinkFor(c, e);
      && k.from < UnitCount(c) && k.to < UnitCount(c)
      && UnitRect(c, l, nodeW, k.from).x + UnitRect(c, l, nodeW, k.from).w < UnitRect(c, l, nodeW, k.to).x
  {
    LinksLift(c, edges);
    LinksInRange(c, edges);
    var i :| 0 <= i < |edges| && edges[i] == e;
    var k :| 0 <= k < |Links(c, edges)| && Links(c, edges)[k] == LinkFor(c, e);
  }

  lemma CrossingGoesRight(c: Cluster, l: Laid, edges: seq<Edge>, nodeW: real, d: Drawing, dx: real, dy: real, e: Edge)
    requires Tidy(c, l, edges, nodeW) && Drawn(c, l, d, dx, dy) && UnitsAcyclic(c, edges)
    requires e in edges && e.from in NodesOf(c) && e.to in NodesOf(c) && Crosses(c, e)
    ensures GoesRight(d, nodeW, e)
  {
    UnitsInOrder(c, l, edges, nodeW, e);
    OwnerHolds(c, e.from);
    OwnerHolds(c, e.to);
    var u, v := Owner(c, e.from).value, Owner(c, e.to).value;
    NodeInUnit(c, l, edges, nodeW, d, dx, dy, u, e.from);
    NodeInUnit(c, l, edges, nodeW, d, dx, dy, v, e.to);
    UnitDrawn(c, l, edges, nodeW, d, dx, dy, u);
    UnitDrawn(c, l, edges, nodeW, d, dx, dy, v);
  }

  lemma {:induction false} TidyDrawnFlows(c: Cluster, l: Laid, edges: seq<Edge>, nodeW: real, d: Drawing, dx: real, dy: real)
    requires Tidy(c, l, edges, nodeW) && Drawn(c, l, d, dx, dy)
    ensures Flows(c, edges, nodeW, d)
    decreases c
  {
    if UnitsAcyclic(c, edges) {
      forall i | 0 <= i < |edges| && edges[i].from in NodesOf(c) && edges[i].to in NodesOf(c) && Crosses(c, edges[i])
        ensures GoesRight(d, nodeW, edges[i])
      {
        CrossingGoesRight(c, l, edges, nodeW, d, dx, dy, edges[i]);
      }
    }
    forall ch | ch in c.children ensures Flows(ch, edges, nodeW, d) {
      var j: nat :| j < |c.children| && c.children[j] == ch;
      assert ChildDrawn(c, l, d, dx, dy, j);
      TidyDrawnFlows(ch, l.children[j], edges, nodeW, d, dx + OffsetOf(l, j).x, dy + OffsetOf(l, j).y);
    }
  }

  ghost predicate AllAcyclic(c: Cluster, edges: seq<Edge>)
    decreases c
  {
    UnitsAcyclic(c, edges) && forall ch {:trigger AllAcyclic(ch, edges)} | ch in c.children :: AllAcyclic(ch, edges)
  }

  // So when no cluster has a cycle of units, every edge between two nodes of the tree
  // goes from left to right: it crosses between units of the innermost cluster with both.
  lemma {:induction false} EdgesGoRight(c: Cluster, edges: seq<Edge>, nodeW: real, d: Drawing, e: Edge)
    requires Flows(c, edges, nodeW, d) && AllAcyclic(c, edges)
    requires e in edges && e.from in NodesOf(c) && e.to in NodesOf(c) && e.from != e.to
    ensures GoesRight(d, nodeW, e)
    decreases c
  {
    OwnerHolds(c, e.from);
    OwnerHolds(c, e.to);
    if Owner(c, e.from) == Owner(c, e.to) {
      var j := Owner(c, e.from).value - |c.nodes|;
      EdgesGoRight(c.children[j], edges, nodeW, d, e);
    }
  }

  const TITLE_H := 54.0

  // Any layout of a tree with distinct names, drawn anywhere, is properly nested.
  lemma DrawingIsNested(c: Cluster, l: Laid, edges: seq<Edge>, nodeW: real, dx: real, dy: real)
    requires Tidy(c, l, edges, nodeW) && Distinct(c)
    ensures var d := Draw(Drawing(map[], map[]), l, dx, dy, |l.children|);
      Nested(c, l, edges, nodeW, d, dx, dy) && Flows(c, edges, nodeW, d)
  {
    var d := Draw(Drawing(map[], map[]), l, dx, dy, |l.children|);
    TidyIsLocated(c, l, edges, nodeW);
    DrawDraws(Drawing(map[], map[]), c, l, dx, dy, |l.children|);
    AllDrawn(c, l, d, dx, dy);
    TidyDrawnIsNested(c, l, edges, nodeW, d, dx, dy);
    TidyDrawnFlows(c, l, edges, nodeW, d, dx, dy);
  }

  // layoutDAG: lay out the tree, then move everything into place.
  method LayoutDAG(root: Cluster, edges: seq<Edge>, nodeW: real) returns (l: Laid, d: Drawing)
    requires nodeW >= 0.0 && Distinct(root)
    ensures Nested(root, l, edges, nodeW, d, 0.0, TITLE_H) && Flows(root, edges, nodeW, d) && Snug(root, l, nodeW, true)
  {
    l := LayoutCluster(root, edges, nodeW, true);
    d := Absolutize(l, 0.0, TITLE_H, Drawing(map[], map[]));
    DrawingIsNested(root, l, edges, nodeW, 0.0, TITLE_H);
  }
}
