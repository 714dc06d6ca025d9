// The nested-box layout of a DAG drawing: each cluster's units are put in columns
// by longest-path level, and child clusters are units of their parent.

module Layout {
  import opened Geometry

  const NODE_H := 44.0
  const H_GAP := 72.0
  const V_GAP := 20.0
  const PAD_X := 28.0
  const PAD_Y := 24.0
  const CLUSTER_PAD_X := 16.0
  const CLUSTER_PAD_Y := 12.0
  const CLUSTER_LABEL_H := 18.0

  // ---- levels ------------------------------------------------------------------------------

  // An edge of the unit graph, between units by number.
  datatype Link = Link(from: nat, to: nat)

  predicate InRange(links: seq<Link>, n: nat) {
    forall k | 0 <= k < |links| :: links[k].from < n && links[k].to < n && links[k].from != links[k].to
  }

  ghost predicate Ranked(links: seq<Link>, rank: seq<nat>, n: nat) {
    |rank| == n && InRange(links, n) && forall k | 0 <= k < |links| :: rank[links[k].from] < rank[links[k].to]
  }

  function Into(links: seq<Link>, used: set<nat>, v: nat): set<nat> {
    set k: nat | k < |links| && links[k].to == v && k !in used
  }

  function LevelOf(level: map<nat, nat>, u: nat): nat {
    if u in level then level[u] else 0
  }

  // The state of the level queue: the in-degrees, the links used so far and the
  // units that were put in the queue.
  ghost predicate Counts(links: seq<Link>, n: nat, indeg: seq<int>, used: set<nat>, queued: set<nat>) {
    && InRange(links, n) && |indeg| == n
    && (forall v: nat {:trigger Into(links, used, v)} | v < n ::
          indeg[v] == |Into(links, used, v)| && (v in queued <==> Into(links, used, v) == {}))
    && (forall v | v in queued :: v < n)
    && (forall k | k in used :: k < |links| && links[k].from in queued)
  }

  // A used link goes up a level.
  ghost predicate Climbs(links: seq<Link>, level: map<nat, nat>, used: set<nat>) {
    forall k | k in used :: k < |links| && LevelOf(level, links[k].from) < LevelOf(level, links[k].to)
  }

  // A unit is not higher than a used link demands.
  ghost predicate Demanded(links: seq<Link>, level: map<nat, nat>, used: set<nat>, v: nat) {
    exists k :: k in used && k < |links| && links[k].to == v && LevelOf(level, links[k].from) + 1 == LevelOf(level, v)
  }

  ghost predicate Low(links: seq<Link>, level: map<nat, nat>, used: set<nat>) {
    forall v: nat {:trigger LevelOf(level, v)} | LevelOf(level, v) > 0 :: Demanded(links, level, used, v)
  }

  function Raised(level: map<nat, nat>, u: nat, v: nat): map<nat, nat> {
    if LevelOf(level, u) + 1 > LevelOf(level, v) then level[v := LevelOf(level, u) + 1] else level
  }

  lemma IntoAfter(links: seq<Link>, used: set<nat>, k: nat, w: nat)
    requires k < |links| && k !in used
    ensures Into(links, used + {k}, w) == if links[k].to == w then Into(links, used, w) - {k} else Into(links, used, w)
    ensures links[k].to == w ==> k in Into(links, used, w) && |Into(links, used + {k}, w)| == |Into(links, used, w)| - 1
  {
    assert Into(links, used + {k}, w) == if links[k].to == w then Into(links, used, w) - {k} else Into(links, used, w);
  }

  lemma CountsAfter(links: seq<Link>, n: nat, indeg: seq<int>, used: set<nat>, queued: set<nat>, k: nat)
    requires Counts(links, n, indeg, used, queued) && k < |links| && k !in used && links[k].from in queued
    ensures var v := links[k].to;
      && v !in queued && 0 <= v < |indeg|
      && Counts(links, n, indeg[v := indeg[v] - 1], used + {k}, if indeg[v] - 1 == 0 then queued + {v} else queued)
  {
    var v := links[k].to;
    IntoAfter(links, used, k, v);
    var indeg1, queued1 := indeg[v := indeg[v] - 1], if indeg[v] - 1 == 0 then queued + {v} else queued;
    forall w: nat | w < n
      ensures indeg1[w] == |Into(links, used + {k}, w)| && (w in queued1 <==> Into(links, used + {k}, w) == {})
    {
      IntoAfter(links, used, k, w);
    }
  }

  lemma ClimbsAfter(links: seq<Link>, n: nat, level: map<nat, nat>, used: set<nat>, queued: set<nat>, k: nat)
    requires Climbs(links, level, used) && InRange(links, n) && k < |links| && links[k].to !in queued
    requires forall j | j in used :: j < |links| && links[j].from in queued
    ensures Climbs(links, Raised(level, links[k].from, links[k].to), used + {k})
  {
  }

  lemma LowAfter(links: seq<Link>, n: nat, level: map<nat, nat>, used: set<nat>, queued: set<nat>, k: nat)
    requires Low(links, level, used) && InRange(links, n) && k < |links| && links[k].to !in queued
    requires links[k].from in queued && forall j | j in used :: j < |links| && links[j].from in queued
    ensures Low(links, Raised(level, links[k].from, links[k].to), used + {k})
  {
    var u, v := links[k].from, links[k].to;
    var level1 := Raised(level, u, v);
    forall w: nat | LevelOf(level1, w) > 0 ensures Demanded(links, level1, used + {k}, w) {
      if w == v && level1 != level {
        assert k in used + {k};
      } else {
        assert Demanded(links, level, used, w);
        var j :| j in used && j < |links| && links[j].to == w && LevelOf(level, links[j].from) + 1 == LevelOf(level, w);
        assert j in used + {k} && links[j].from != v;
      }
    }
  }

  ghost predicate Leveled(links: seq<Link>, level: map<nat, nat>, used: set<nat>) {
    Climbs(links, level, used) && Low(links, level, used)
  }

  lemma LeveledAfter(links: seq<Link>, n: nat, level: map<nat, nat>, used: set<nat>, queued: set<nat>, k: nat)
    requires Leveled(links, level, used) && InRange(links, n) && k < |links| && links[k].to !in queued
    requires links[k].from in queued && forall j | j in used :: j < |links| && links[j].from in queued
    ensures Leveled(links, Raised(level, links[k].from, links[k].to), used + {k})
  {
    ClimbsAfter(links, n, level, used, queued, k);
    LowAfter(links, n, level, used, queued, k);
  }

  // The links out of u from the i-th on are unused.
  ghost predicate Unused(out: seq<nat>, i: nat, used: set<nat>)
    requires i <= |out|
  {
    forall j | i <= j < |out| :: out[j] !in used
  }

  // The units that were put in the queue, once each.
  ghost predicate Pushed(more: seq<nat>, queued: set<nat>, queued1: set<nat>) {
    && (forall i, j | 0 <= i < j < |more| :: more[i] != more[j])
    && (forall i | 0 <= i < |more| :: more[i] !in queued)
    && (forall x :: x in queued1 <==> x in queued || x in more)
  }

  lemma PushOne(more: seq<nat>, queued: set<nat>, queued1: set<nat>, v: nat)
    requires Pushed(more, queued, queued1) && v !in queued1
    ensures Pushed(more + [v], queued, queued1 + {v})
  {
    forall i | 0 <= i < |more| ensures more[i] != v {
      assert more[i] in more;
    }
  }

  // Takes the links out of u: their targets move up, and those that wait for
  // nothing more are put in the queue.
  method UseLinks(links: seq<Link>, n: nat, u: nat, adj: seq<nat>, indeg: array<int>, level: map<nat, nat>,
                  ghost used: set<nat>, ghost queued: set<nat>)
      returns (level1: map<nat, nat>, more: seq<nat>, ghost used1: set<nat>, ghost queued1: set<nat>)
    requires Counts(links, n, indeg[..], used, queued) && Leveled(links, level, used)
    requires u in queued && Outgoing(links, u, adj) && Unused(adj, 0, used)
    modifies indeg
    ensures Counts(links, n, indeg[..], used1, queued1) && Leveled(links, level1, used1)
    ensures forall k :: k in used1 <==> k in used || k in adj
    ensures Pushed(more, queued, queued1)
  {
    level1, more, used1, queued1 := level, [], used, queued;
    for i := 0 to |adj|
      invariant Counts(links, n, indeg[..], used1, queued1) && Leveled(links, level1, used1)
      invariant (forall k :: k in used1 <==> k in used || k in adj[..i]) && Unused(adj, i, used1)
      invariant Pushed(more, queued, queued1)
    {
      var v := links[adj[i]].to;
      CountsAfter(links, n, indeg[..], used1, queued1, adj[i]);
      LeveledAfter(links, n, level1, used1, queued1, adj[i]);
      assert adj[..i + 1] == adj[..i] + [adj[i]];
      level1 := Raised(level1, u, v);
      indeg[v] := indeg[v] - 1;
      used1 := used1 + {adj[i]};
      if indeg[v] == 0 {
        PushOne(more, queued, queued1, v);
        more, queued1 := more + [v], queued1 + {v};
      }
    }
    assert adj[..|adj|] == adj;
  }

  // The numbers of the links out of u, in order.
  ghost predicate Outgoing(links: seq<Link>, u: nat, adj: seq<nat>) {
    && (forall i | 0 <= i < |adj| :: adj[i] < |links| && links[adj[i]].from == u)
    && (forall i, j | 0 <= i < j < |adj| :: adj[i] != adj[j])
    && forall k: nat | k < |links| && links[k].from == u :: k in adj
  }

  lemma OutgoingSkips(links: seq<Link>, longer: seq<Link>, u: nat, adj: seq<nat>)
    requires Outgoing(links, u, adj) && |longer| == |links| + 1 && longer[..|links|] == links && longer[|links|].from != u
    ensures Outgoing(longer, u, adj)
  {
    forall i | 0 <= i < |adj| ensures adj[i] < |longer| && longer[adj[i]].from == u {
      assert longer[..|links|][adj[i]].from == u;
    }
    forall k: nat | k < |longer| && longer[k].from == u ensures k in adj {
      assert longer[..|links|][k].from == u;
    }
  }

  lemma OutgoingAdds(links: seq<Link>, longer: seq<Link>, u: nat, adj: seq<nat>)
    requires Outgoing(links, u, adj) && |longer| == |links| + 1 && longer[..|links|] == links && longer[|links|].from == u
    ensures Outgoing(longer, u, adj + [|links|])
  {
    var adj1 := adj + [|links|];
    forall i | 0 <= i < |adj1| ensures adj1[i] < |longer| && longer[adj1[i]].from == u {
      if i < |adj| {
        assert longer[..|links|][adj[i]].from == u;
      }
    }
    forall k: nat | k < |longer| && longer[k].from == u ensures k in adj1 {
      if k < |links| {
        assert longer[..|links|][k].from == u;
        assert k in adj;
      } else {
        assert adj1[|adj|] == k;
      }
    }
  }

  lemma OutgoingPush(links: seq<Link>, k: nat, u: nat, adj: seq<nat>)
    requires k < |links| && Outgoing(links[..k], u, adj)
    ensures Outgoing(links[..k + 1], u, if links[k].from == u then adj + [k] else adj)
  {
    assert links[..k + 1][..k] == links[..k];
    if links[k].from == u {
      OutgoingAdds(links[..k], links[..k + 1], u, adj);
    } else {
      OutgoingSkips(links[..k], links[..k + 1], u, adj);
    }
  }

  lemma IntoPush(links: seq<Link>, k: nat, v: nat)
    requires k < |links|
    ensures |Into(links[..k + 1], {}, v)| == |Into(links[..k], {}, v)| + if links[k].to == v then 1 else 0
  {
    if links[k].to == v {
      assert Into(links[..k + 1], {}, v) == Into(links[..k], {}, v) + {k};
    } else {
      assert Into(links[..k + 1], {}, v) == Into(links[..k], {}, v);
    }
  }

  ghost predicate Indexed(links: seq<Link>, n: nat, adj: seq<seq<nat>>, indeg: seq<int>) {
    && |adj| == n == |indeg|
    && forall u: nat | u < n :: Outgoing(links, u, adj[u]) && indeg[u] == |Into(links, {}, u)|
  }

  lemma CellPushed(links: seq<Link>, k: nat, u: nat, out: seq<nat>, into: int)
    requires k < |links| && Outgoing(links[..k], u, out) && into == |Into(links[..k], {}, u)|
    ensures Outgoing(links[..k + 1], u, if links[k].from == u then out + [k] else out)
    ensures |Into(links[..k + 1], {}, u)| == if links[k].to == u then into + 1 else into
  {
    OutgoingPush(links, k, u, out);
    IntoPush(links, k, u);
  }

  lemma IndexedPush(links: seq<Link>, n: nat, k: nat, adj: seq<seq<nat>>, indeg: seq<int>)
    requires InRange(links, n) && k < |links| && Indexed(links[..k], n, adj, indeg)
    ensures 0 <= links[k].from < n && 0 <= links[k].to < n
    ensures var f, t := links[k].from, links[k].to;
      Indexed(links[..k + 1], n, adj[f := adj[f] + [k]], indeg[t := indeg[t] + 1])
  {
    var f, t := links[k].from, links[k].to;
    var adj1, indeg1 := adj[f := adj[f] + [k]], indeg[t := indeg[t] + 1];
    forall u: nat | u < n
      ensures Outgoing(links[..k + 1], u, adj1[u]) && indeg1[u] == |Into(links[..k + 1], {}, u)|
    {
      CellPushed(links, k, u, adj[u], indeg[u]);
    }
  }

  method IndexLinks(n: nat, links: seq<Link>) returns (adj: array<seq<nat>>, indeg: array<int>)
    requires InRange(links, n)
    ensures fresh(adj) && fresh(indeg) && Indexed(links, n, adj[..], indeg[..])
  {
    adj := new seq<nat>[n](_ => []);
    indeg := new int[n](_ => 0);
    assert forall v :: Into(links[..0], {}, v) == {};
    for k := 0 to |links|
      invariant Indexed(links[..k], n, adj[..], indeg[..])
    {
      IndexedPush(links, n, k, adj[..], indeg[..]);
      adj[links[k].from] := adj[links[k].from] + [k];
      indeg[links[k].to] := indeg[links[k].to] + 1;
    }
    assert links[..|links|] == links;
  }

  // The units that wait for nothing, at level 0.
  method Roots(links: seq<Link>, n: nat, indeg: seq<int>) returns (level: map<nat, nat>, queue: seq<nat>, ghost queued: set<nat>)
    requires InRange(links, n) && |indeg| == n && forall v: nat | v < n :: indeg[v] == |Into(links, {}, v)|
    ensures Counts(links, n, indeg, {}, queued) && Pushed(queue, {}, queued)
    ensures forall v | v in level :: level[v] == 0
  {
    level, queue, queued := map[], [], {};
    for v := 0 to n
      invariant Pushed(queue, {}, queued) && forall u: nat :: u in queued <==> u < v && Into(links, {}, u) == {}
      invariant forall u | u in level :: level[u] == 0
    {
      if indeg[v] == 0 {
        PushOne(queue, {}, queued, v);
        level := level[v := 0];
        queue, queued := queue + [v], queued + {v};
      }
    }
  }

  lemma Dequeue(queue: seq<nat>, more: seq<nat>, processed: set<nat>, queued: set<nat>, queued1: set<nat>)
    requires queue != [] && Pushed(queue, processed, queued) && Pushed(more, queued, queued1)
    ensures Pushed(queue[1..] + more, processed + {queue[0]}, queued1)
  {
    var rest := queue[1..] + more;
    assert queue == [queue[0]] + queue[1..];
    forall i, j | 0 <= i < j < |rest| ensures rest[i] != rest[j] {
      if i < |queue| - 1 <= j {
        assert queue[i + 1] in queue;
      }
    }
    forall i | 0 <= i < |rest| ensures rest[i] !in processed + {queue[0]} {
      if i >= |queue| - 1 {
        assert queue[0] in queue;
      }
    }
  }

  // With every queued unit processed, a rankable graph has no unused link left.
  lemma {:induction false} RankedIsQueued(links: seq<Link>, n: nat, indeg: seq<int>, used: set<nat>, queued: set<nat>, rank: seq<nat>, v: nat)
    requires Counts(links, n, indeg, used, queued) && Ranked(links, rank, n) && v < n
    requires forall k: nat | k < |links| && links[k].from in queued :: k in used
    ensures v in queued
    decreases rank[v]
  {
    if Into(links, used, v) != {} {
      var k :| k in Into(links, used, v);
      RankedIsQueued(links, n, indeg, used, queued, rank, links[k].from);
    }
  }

  function Below(n: nat): (r: set<nat>)
    ensures forall v: nat :: v in r <==> v < n
  {
    if n == 0 then {} else Below(n - 1) + {n - 1}
  }

  // Every unit above level 0 is one above another that links to it.
  ghost predicate OnDemand(links: seq<Link>, level: map<nat, nat>) {
    forall v: nat | LevelOf(level, v) > 0 ::
      exists k :: 0 <= k < |links| && links[k].to == v && LevelOf(level, links[k].from) + 1 == LevelOf(level, v)
  }

  lemma LowIsDemanded(links: seq<Link>, level: map<nat, nat>, used: set<nat>)
    requires Low(links, level, used)
    ensures OnDemand(links, level)
  {
    forall v: nat | LevelOf(level, v) > 0
      ensures exists k :: 0 <= k < |links| && links[k].to == v && LevelOf(level, links[k].from) + 1 == LevelOf(level, v)
    {
      assert Demanded(links, level, used, v);
    }
  }

  // Longest-path levels: in an acyclic unit graph every link goes up; and no unit is
  // higher than a link into it demands.
  method Levels(n: nat, links: seq<Link>) returns (level: map<nat, nat>)
    requires InRange(links, n)
    ensures (exists rank :: Ranked(links, rank, n)) ==>
      forall k | 0 <= k < |links| :: LevelOf(level, links[k].from) < LevelOf(level, links[k].to)
    ensures OnDemand(links, level)
  {
    var adj, indeg := IndexLinks(n, links);
    ghost var outs := adj[..];
    ghost var used: set<nat>, processed: set<nat>, queued: set<nat> := {}, {}, {};
    var queue;
    level, queue, queued := Roots(links, n, indeg[..]);
    while queue != []
      invariant Counts(links, n, indeg[..], used, queued) && Leveled(links, level, used)
      invariant Pushed(queue, processed, queued) && adj[..] == outs
      invariant forall k: nat :: k in used <==> k < |links| && links[k].from in processed
      decreases Below(n) - processed
    {
      var u := queue[0];
      assert u in queued && u < n && Outgoing(links, u, outs[u]);
      var more;
      ghost var queued1;
      level, more, used, queued1 := UseLinks(links, n, u, adj[u], indeg, level, used, queued);
      Dequeue(queue, more, processed, queued, queued1);
      queue, processed, queued := queue[1..] + more, processed + {u}, queued1;
    }
    LowIsDemanded(links, level, used);
    if exists rank :: Ranked(links, rank, n) {
      ghost var rank :| Ranked(links, rank, n);
      forall k | 0 <= k < |links| ensures LevelOf(level, links[k].from) < LevelOf(level, links[k].to) {
        RankedIsQueued(links, n, indeg[..], used, queued, rank, links[k].from);
        assert k in used;
      }
    }
  }

  // ---- columns --------------------------------------------------------------------------------

  datatype Size = Size(w: real, h: real)

  datatype Pos = Pos(x: real, y: real)

  predicate Sizes(sizes: seq<Size>) {
    forall i | 0 <= i < |sizes| :: sizes[i].w >= 0.0 && sizes[i].h >= 0.0
  }

  // The units of level l among the first n, in order.
  function Row(lv: seq<nat>, l: nat, n: nat): seq<nat>
    requires n <= |lv|
  {
    if n == 0 then [] else Row(lv, l, n - 1) + if lv[n - 1] == l then [n - 1] else []
  }

  lemma {:induction false} RowElements(lv: seq<nat>, l: nat, n: nat)
    requires n <= |lv|
    ensures forall i | 0 <= i < |Row(lv, l, n)| :: Row(lv, l, n)[i] < n && lv[Row(lv, l, n)[i]] == l
    ensures forall i, j | 0 <= i < j < |Row(lv, l, n)| :: Row(lv, l, n)[i] < Row(lv, l, n)[j]
  {
    if n > 0 {
      RowElements(lv, l, n - 1);
    }
  }

  lemma {:induction false} RowComplete(lv: seq<nat>, n: nat, u: nat) returns (i: nat)
    requires u < n <= |lv|
    ensures i < |Row(lv, lv[u], n)| && Row(lv, lv[u], n)[i] == u
  {
    if u < n - 1 {
      i := RowComplete(lv, n - 1, u);
    } else {
      i := |Row(lv, lv[u], n - 1)|;
    }
  }

  predicate RowOf(sizes: seq<Size>, row: seq<nat>) {
    forall i | 0 <= i < |row| :: row[i] < |sizes|
  }

  function Widest(sizes: seq<Size>, row: seq<nat>): (w: real)
    requires RowOf(sizes, row)
    ensures w >= 0.0
  {
    if row == [] then 0.0
    else
      var w := Widest(sizes, row[..|row| - 1]);
      if sizes[row[|row| - 1]].w > w then sizes[row[|row| - 1]].w else w
  }

  // The heights of the units and the gap below each.
  function Stack(sizes: seq<Size>, row: seq<nat>): real
    requires RowOf(sizes, row)
  {
    if row == [] then 0.0 else Stack(sizes, row[..|row| - 1]) + sizes[row[|row| - 1]].h + V_GAP
  }

  function ColumnH(sizes: seq<Size>, row: seq<nat>): real
    requires RowOf(sizes, row)
  {
    if row == [] then 0.0 else Stack(sizes, row) - V_GAP
  }

  lemma {:induction false} WidestCovers(sizes: seq<Size>, row: seq<nat>, i: nat)
    requires RowOf(sizes, row) && i < |row|
    ensures sizes[row[i]].w <= Widest(sizes, row)
  {
    if i < |row| - 1 {
      WidestCovers(sizes, row[..|row| - 1], i);
    }
  }

  // Within a column each unit ends a gap above the next, and the last at its foot.
  lemma {:induction false} Stacked(sizes: seq<Size>, row: seq<nat>, i: nat, j: nat)
    requires RowOf(sizes, row) && Sizes(sizes) && i < j <= |row|
    ensures 0.0 <= Stack(sizes, row[..i]) && Stack(sizes, row[..i]) + sizes[row[i]].h + V_GAP <= Stack(sizes, row[..j])
    decreases j
  {
    assert row[..j][..j - 1] == row[..j - 1];
    if i < j - 1 {
      Stacked(sizes, row, i, j - 1);
    } else if i > 0 {
      Stacked(sizes, row, 0, i);
    }
  }

  datatype Columns = Columns(sizes: seq<Size>, lv: seq<nat>, top: nat)

  predicate ValidColumns(c: Columns) {
    |c.lv| == |c.sizes| && Sizes(c.sizes) && forall u | 0 <= u < |c.lv| :: c.lv[u] <= c.top
  }

  function RowAt(c: Columns, l: nat): (row: seq<nat>)
    requires ValidColumns(c)
    ensures RowOf(c.sizes, row)
  {
    RowElements(c.lv, l, |c.lv|);
    Row(c.lv, l, |c.lv|)
  }

  function ColumnX(c: Columns, l: nat): (x: real)
    requires ValidColumns(c)
    ensures x >= 0.0
  {
    if l == 0 then 0.0 else ColumnX(c, l - 1) + Widest(c.sizes, RowAt(c, l - 1)) + H_GAP
  }

  function ContentW(c: Columns): real
    requires ValidColumns(c)
  {
    ColumnX(c, c.top) + Widest(c.sizes, RowAt(c, c.top))
  }

  function Tallest(c: Columns, n: nat): (h: real)
    requires ValidColumns(c)
    ensures h >= 0.0
  {
    if n == 0 then 0.0
    else
      var h, h1 := Tallest(c, n - 1), ColumnH(c.sizes, RowAt(c, n - 1));
      if h1 > h then h1 else h
  }

  function ContentH(c: Columns): real
    requires ValidColumns(c)
  {
    Tallest(c, c.top + 1)
  }

  // Where the i-th unit of a row goes, in a column that starts at (x, y).
  function SpotIn(sizes: seq<Size>, row: seq<nat>, x: real, w: real, y: real, i: nat): Pos
    requires RowOf(sizes, row) && i < |row|
  {
    Pos(x + (w - sizes[row[i]].w) / 2.0, y + Stack(sizes, row[..i]))
  }

  // Where the i-th unit of column l goes.
  function Spot(c: Columns, l: nat, i: nat): Pos
    requires ValidColumns(c) && i < |RowAt(c, l)|
  {
    var row := RowAt(c, l);
    SpotIn(c.sizes, row, ColumnX(c, l), Widest(c.sizes, row), (ContentH(c) - ColumnH(c.sizes, row)) / 2.0, i)
  }

  lemma {:induction false} ColumnsApart(c: Columns, l: nat, m: nat)
    requires ValidColumns(c) && l < m
    ensures ColumnX(c, l) + Widest(c.sizes, RowAt(c, l)) + H_GAP <= ColumnX(c, m)
    decreases m
  {
    if l < m - 1 {
      ColumnsApart(c, l, m - 1);
    }
  }

  lemma {:induction false} TallestCovers(c: Columns, l: nat, n: nat)
    requires ValidColumns(c) && l < n
    ensures ColumnH(c.sizes, RowAt(c, l)) <= Tallest(c, n)
    decreases n
  {
    if l < n - 1 {
      TallestCovers(c, l, n - 1);
    }
  }

  predicate Apart(a: Rect, b: Rect) {
    a.x + a.w <= b.x || b.x + b.w <= a.x || a.y + a.h <= b.y || b.y + b.h <= a.y
  }

  predicate Within(a: Rect, b: Rect) {
    b.x <= a.x && b.y <= a.y && a.x + a.w <= b.x + b.w && a.y + a.h <= b.y + b.h
  }

  function At(p: Pos, s: Size): Rect {
    Rect(p.x, p.y, s.w, s.h)
  }

  // Every unit is at the spot of its column.
  ghost predicate Placed(c: Columns, pos: seq<Pos>)
    requires ValidColumns(c)
  {
    && |pos| == |c.sizes|
    && forall l: nat, i: nat {:trigger Spot(c, l, i)} | l <= c.top && i < |RowAt(c, l)| :: pos[RowAt(c, l)[i]] == Spot(c, l, i)
  }

  lemma UnitSpot(c: Columns, pos: seq<Pos>, u: nat) returns (i: nat)
    requires ValidColumns(c) && Placed(c, pos) && u < |pos|
    ensures i < |RowAt(c, c.lv[u])| && RowAt(c, c.lv[u])[i] == u && pos[u] == Spot(c, c.lv[u], i)
  {
    i := RowComplete(c.lv, |c.lv|, u);
    assert pos[RowAt(c, c.lv[u])[i]] == Spot(c, c.lv[u], i);
  }

  lemma SpotInColumn(c: Columns, l: nat, i: nat)
    requires ValidColumns(c) && l <= c.top && i < |RowAt(c, l)|
    ensures var row := RowAt(c, l);
      && ColumnX(c, l) <= Spot(c, l, i).x && Spot(c, l, i).x + c.sizes[row[i]].w <= ColumnX(c, l) + Widest(c.sizes, row)
      && 0.0 <= Spot(c, l, i).y && Spot(c, l, i).y + c.sizes[row[i]].h <= ContentH(c)
  {
    var row := RowAt(c, l);
    WidestCovers(c.sizes, row, i);
    TallestCovers(c, l, c.top + 1);
    Stacked(c.sizes, row, i, |row|);
    assert row[..|row|] == row;
  }

  lemma {:induction false} WidestAttained(sizes: seq<Size>, row: seq<nat>) returns (i: nat)
    requires RowOf(sizes, row) && Sizes(sizes) && row != []
    ensures i < |row| && sizes[row[i]].w == Widest(sizes, row)
  {
    var n := |row| - 1;
    if n == 0 || sizes[row[n]].w > Widest(sizes, row[..n]) {
      i := n;
    } else {
      i := WidestAttained(sizes, row[..n]);
    }
  }

  // A column is as wide as its widest unit, and its units are centered in it.
  lemma ColumnIsCentered(c: Columns, pos: seq<Pos>, l: nat)
    requires ValidColumns(c) && Placed(c, pos) && l <= c.top && RowAt(c, l) != []
    ensures var row := RowAt(c, l);
      var w := Widest(c.sizes, row);
      && (exists i :: 0 <= i < |row| && c.sizes[row[i]].w == w)
      && forall i | 0 <= i < |row| :: pos[row[i]].x - ColumnX(c, l) == ColumnX(c, l) + w - (pos[row[i]].x + c.sizes[row[i]].w)
  {
    var row := RowAt(c, l);
    var widest := WidestAttained(c.sizes, row);
    forall i: nat | i < |row| ensures pos[row[i]].x - ColumnX(c, l) == ColumnX(c, l) + Widest(c.sizes, row) - (pos[row[i]].x + c.sizes[row[i]].w) {
      assert pos[row[i]] == Spot(c, l, i);
    }
  }

  // They are stacked a gap apart, in the middle of the content's height.
  lemma StackIsCentered(c: Columns, pos: seq<Pos>, l: nat, i: nat)
    requires ValidColumns(c) && Placed(c, pos) && l <= c.top && i < |RowAt(c, l)|
    ensures var row := RowAt(c, l);
      && (i + 1 < |row| ==> pos[row[i + 1]].y == pos[row[i]].y + c.sizes[row[i]].h + V_GAP)
      && pos[row[0]].y == ContentH(c) - (pos[row[|row| - 1]].y + c.sizes[row[|row| - 1]].h)
  {
    var row := RowAt(c, l);
    var n := |row| - 1;
    assert pos[row[0]] == Spot(c, l, 0) && pos[row[i]] == Spot(c, l, i) && pos[row[n]] == Spot(c, l, n);
    assert row[..n + 1] == row && row[..n + 1][..n] == row[..n];
    if i < n {
      assert pos[row[i + 1]] == Spot(c, l, i + 1) && row[..i + 1][..i] == row[..i];
    }
  }

  predicate HasUnits(c: Columns, l: nat)
    requires ValidColumns(c)
  {
    RowAt(c, l) != []
  }

  lemma HeightOfRow(c: Columns, l: nat)
    requires ValidColumns(c)
    ensures ColumnH(c.sizes, RowAt(c, l)) >= 0.0
  {
    var row := RowAt(c, l);
    if row != [] {
      Stacked(c.sizes, row, |row| - 1, |row|);
      assert row[..|row|] == row;
    }
  }

  // No row below the k-th that has units is higher.
  ghost predicate NoneHigher(c: Columns, l: nat, k: nat)
    requires ValidColumns(c)
  {
    forall m: nat {:trigger HasUnits(c, m)} | m < k && HasUnits(c, m) :: ColumnH(c.sizes, RowAt(c, m)) <= ColumnH(c.sizes, RowAt(c, l))
  }

  lemma {:induction false} HighestRow(c: Columns, l: nat, k: nat, n: nat) returns (best: nat)
    requires ValidColumns(c) && k <= n && l < n && HasUnits(c, l) && NoneHigher(c, l, k)
    ensures best < n && HasUnits(c, best) && NoneHigher(c, best, n)
    decreases n - k
  {
    if k == n {
      best := l;
    } else if HasUnits(c, k) && ColumnH(c.sizes, RowAt(c, k)) > ColumnH(c.sizes, RowAt(c, l)) {
      best := HighestRow(c, k, k + 1, n);
    } else {
      best := HighestRow(c, l, k + 1, n);
    }
  }

  lemma {:induction false} TallestBounded(c: Columns, n: nat, h: real)
    requires ValidColumns(c) && h >= 0.0 && forall m: nat | m < n :: ColumnH(c.sizes, RowAt(c, m)) <= h
    ensures Tallest(c, n) <= h
  {
    if n > 0 {
      TallestBounded(c, n - 1, h);
    }
  }

  // The content is as high as some column that has units.
  lemma TallestAttained(c: Columns, m: nat, n: nat) returns (l: nat)
    requires ValidColumns(c) && m < n && HasUnits(c, m)
    ensures l < n && HasUnits(c, l) && ColumnH(c.sizes, RowAt(c, l)) == Tallest(c, n)
  {
    l := HighestRow(c, m, 0, n);
    HeightOfRow(c, l);
    forall k: nat | k < n ensures ColumnH(c.sizes, RowAt(c, k)) <= ColumnH(c.sizes, RowAt(c, l)) {
      if !HasUnits(c, k) {
        assert RowAt(c, k) == [];
      }
    }
    TallestBounded(c, n, ColumnH(c.sizes, RowAt(c, l)));
    TallestCovers(c, l, n);
  }

  ghost predicate TopHasUnits(c: Columns) {
    exists u :: 0 <= u < |c.lv| && c.lv[u] == c.top
  }

  // Units touch all four sides of the content.
  ghost predicate TouchesSides(sizes: seq<Size>, pos: seq<Pos>, w: real, h: real)
    requires |pos| == |sizes|
  {
    && (exists u :: 0 <= u < |pos| && pos[u].x == 0.0)
    && (exists u :: 0 <= u < |pos| && pos[u].x + sizes[u].w == w)
    && (exists u :: 0 <= u < |pos| && pos[u].y == 0.0)
    && (exists u :: 0 <= u < |pos| && pos[u].y + sizes[u].h == h)
  }

  lemma WidestSpot(c: Columns, pos: seq<Pos>, u: nat) returns (v: nat)
    requires ValidColumns(c) && Placed(c, pos) && u < |c.lv|
    ensures v < |pos| && pos[v].x == ColumnX(c, c.lv[u]) && c.sizes[v].w == Widest(c.sizes, RowAt(c, c.lv[u]))
  {
    var i := UnitSpot(c, pos, u);
    var row := RowAt(c, c.lv[u]);
    var k := WidestAttained(c.sizes, row);
    assert pos[row[k]] == Spot(c, c.lv[u], k);
    v := row[k];
  }

  // With a unit at level 0 and one at the top, the content is no larger than its units.
  lemma ContentIsSnug(c: Columns, pos: seq<Pos>, u0: nat)
    requires ValidColumns(c) && Placed(c, pos) && u0 < |c.lv| && c.lv[u0] == 0 && TopHasUnits(c)
    ensures TouchesSides(c.sizes, pos, ContentW(c), ContentH(c))
  {
    var u1 :| 0 <= u1 < |c.lv| && c.lv[u1] == c.top;
    var left := WidestSpot(c, pos, u0);
    var right := WidestSpot(c, pos, u1);
    var i := UnitSpot(c, pos, u0);
    assert HasUnits(c, 0);
    var l := TallestAttained(c, 0, c.top + 1);
    var row := RowAt(c, l);
    var n := |row| - 1;
    assert pos[row[0]] == Spot(c, l, 0) && pos[row[n]] == Spot(c, l, n);
    StackIsCentered(c, pos, l, 0);
    assert pos[row[0]].y == 0.0;
  }

  lemma UnitInside(c: Columns, pos: seq<Pos>, u: nat)
    requires ValidColumns(c) && Placed(c, pos) && u < |pos|
    ensures Within(At(pos[u], c.sizes[u]), Rect(0.0, 0.0, ContentW(c), ContentH(c)))
  {
    var i := UnitSpot(c, pos, u);
    SpotInColumn(c, c.lv[u], i);
    if c.lv[u] < c.top {
      ColumnsApart(c, c.lv[u], c.top);
    }
  }

  // A unit of a lower level ends to the left of one of a higher level.
  lemma UnitsLeftToRight(c: Columns, pos: seq<Pos>, u: nat, v: nat)
    requires ValidColumns(c) && Placed(c, pos) && u < |pos| && v < |pos| && c.lv[u] < c.lv[v]
    ensures pos[u].x + c.sizes[u].w + H_GAP <= pos[v].x
  {
    var i := UnitSpot(c, pos, u);
    var j := UnitSpot(c, pos, v);
    SpotInColumn(c, c.lv[u], i);
    SpotInColumn(c, c.lv[v], j);
    ColumnsApart(c, c.lv[u], c.lv[v]);
  }

  lemma UnitsApart(c: Columns, pos: seq<Pos>, u: nat, v: nat)
    requires ValidColumns(c) && Placed(c, pos) && u < |pos| && v < |pos| && u != v
    ensures Apart(At(pos[u], c.sizes[u]), At(pos[v], c.sizes[v]))
  {
    if c.lv[u] < c.lv[v] {
      UnitsLeftToRight(c, pos, u, v);
    } else if c.lv[v] < c.lv[u] {
      UnitsLeftToRight(c, pos, v, u);
    } else {
      var i := UnitSpot(c, pos, u);
      var j := UnitSpot(c, pos, v);
      Stacked(c.sizes, RowAt(c, c.lv[u]), if i < j then i else j, if i < j then j else i);
    }
  }

  // ---- placing units -----------------------------------------------------------------------------

  function RowIn(byLevel: map<nat, seq<nat>>, l: nat): seq<nat> {
    if l in byLevel then byLevel[l] else []
  }

  ghost predicate ByLevel(byLevel: map<nat, seq<nat>>, lv: seq<nat>) {
    forall l: nat {:trigger RowIn(byLevel, l)} :: RowIn(byLevel, l) == Row(lv, l, |lv|)
  }

  lemma OneMoreInRow(lv: seq<nat>, l: nat, m: nat)
    ensures var lv1 := lv + [l]; Row(lv1, m, |lv1|) == if m == l then Row(lv, m, |lv|) + [|lv|] else Row(lv, m, |lv|)
  {
    RowPrefix(lv, lv + [l], m, |lv|);
  }

  lemma RowsGrow(byLevel: map<nat, seq<nat>>, lv: seq<nat>, l: nat)
    requires ByLevel(byLevel, lv)
    ensures ByLevel(byLevel[l := RowIn(byLevel, l) + [|lv|]], lv + [l])
  {
    var lv1 := lv + [l];
    forall m: nat ensures Row(lv1, m, |lv1|) == if m == l then Row(lv, m, |lv|) + [|lv|] else Row(lv, m, |lv|) {
      OneMoreInRow(lv, l, m);
    }
    assert forall m: nat :: RowIn(byLevel, m) == Row(lv, m, |lv|);
  }

  method GroupByLevel(sizes: seq<Size>, level: map<nat, nat>) returns (byLevel: map<nat, seq<nat>>, top: nat, lv: seq<nat>)
    ensures |lv| == |sizes| && forall u | 0 <= u < |lv| :: lv[u] == LevelOf(level, u) <= top
    ensures ByLevel(byLevel, lv) && (sizes != [] ==> exists u :: 0 <= u < |lv| && lv[u] == top)
  {
    byLevel, top, lv := map[], 0, [];
    for u := 0 to |sizes|
      invariant |lv| == u && forall v | 0 <= v < u :: lv[v] == LevelOf(level, v) <= top
      invariant ByLevel(byLevel, lv) && (u == 0 ==> top == 0) && (u > 0 ==> exists v :: 0 <= v < u && lv[v] == top)
    {
      var l := LevelOf(level, u);
      RowsGrow(byLevel, lv, l);
      ghost var lv0 := lv;
      byLevel, lv := byLevel[l := RowIn(byLevel, l) + [u]], lv + [l];
      assert lv[u] == l && forall v | 0 <= v < u :: lv[v] == lv0[v];
      if l > top {
        top := l;
      }
    }
  }

  lemma {:induction false} RowPrefix(lv: seq<nat>, lv1: seq<nat>, l: nat, n: nat)
    requires n <= |lv| <= |lv1| && forall i | 0 <= i < n :: lv[i] == lv1[i]
    ensures Row(lv, l, n) == Row(lv1, l, n)
  {
    if n > 0 {
      RowPrefix(lv, lv1, l, n - 1);
    }
  }

  // The width and height of one column.
  method MeasureColumn(sizes: seq<Size>, row: seq<nat>) returns (w: real, h: real)
    requires RowOf(sizes, row)
    ensures w == Widest(sizes, row) && h == ColumnH(sizes, row)
  {
    w, h := 0.0, 0.0;
    for i := 0 to |row|
      invariant w == Widest(sizes, row[..i]) && h == ColumnH(sizes, row[..i])
    {
      assert row[..i + 1][..i] == row[..i];
      var u := sizes[row[i]];
      if u.w > w {
        w := u.w;
      }
      h := h + u.h;
      if i > 0 {
        h := h + V_GAP;
      }
    }
    assert row[..|row|] == row;
  }

  // Positions once the first n units of a row are placed.
  function AfterRow(pos: seq<Pos>, sizes: seq<Size>, row: seq<nat>, x: real, w: real, y: real, n: nat): (r: seq<Pos>)
    requires RowOf(sizes, row) && |pos| == |sizes| && n <= |row|
    ensures |r| == |pos|
  {
    if n == 0 then pos else AfterRow(pos, sizes, row, x, w, y, n - 1)[row[n - 1] := SpotIn(sizes, row, x, w, y, n - 1)]
  }

  lemma {:induction false} AfterRowAt(pos: seq<Pos>, sizes: seq<Size>, row: seq<nat>, x: real, w: real, y: real, n: nat, u: nat)
    requires RowOf(sizes, row) && |pos| == |sizes| && n <= |row| && u < |pos|
    requires forall i, j | 0 <= i < j < |row| :: row[i] < row[j]
    ensures forall i | 0 <= i < n && row[i] == u :: AfterRow(pos, sizes, row, x, w, y, n)[u] == SpotIn(sizes, row, x, w, y, i)
    ensures (forall i | 0 <= i < n :: row[i] != u) ==> AfterRow(pos, sizes, row, x, w, y, n)[u] == pos[u]
  {
    if n > 0 {
      AfterRowAt(pos, sizes, row, x, w, y, n - 1, u);
    }
  }

  // The units of one column, from its head down, each centred in its width.
  method PlaceColumn(sizes: seq<Size>, row: seq<nat>, x: real, w: real, y0: real, before: seq<Pos>) returns (pos: seq<Pos>)
    requires RowOf(sizes, row) && |before| == |sizes|
    ensures pos == AfterRow(before, sizes, row, x, w, y0, |row|)
  {
    var y := y0;
    pos := before;
    for i := 0 to |row|
      invariant y == y0 + Stack(sizes, row[..i])
      invariant pos == AfterRow(before, sizes, row, x, w, y0, i)
    {
      var u := row[i];
      pos := pos[u := Pos(x + (w - sizes[u].w) / 2.0, y)];
      y := y + sizes[u].h + V_GAP;
      assert row[..i + 1][..i] == row[..i];
    }
    assert row[..|row|] == row;
  }

  ghost predicate PlacedBelow(c: Columns, pos: seq<Pos>, m: nat)
    requires ValidColumns(c) && m <= c.top + 1
  {
    && |pos| == |c.sizes|
    && forall l: nat, i: nat {:trigger Spot(c, l, i)} | l < m && i < |RowAt(c, l)| :: pos[RowAt(c, l)[i]] == Spot(c, l, i)
  }

  ghost function NextColumn(c: Columns, pos: seq<Pos>, m: nat): seq<Pos>
    requires ValidColumns(c) && |pos| == |c.sizes|
  {
    var row := RowAt(c, m);
    AfterRow(pos, c.sizes, row, ColumnX(c, m), Widest(c.sizes, row), (ContentH(c) - ColumnH(c.sizes, row)) / 2.0, |row|)
  }

  // The units of column m get their spots, and those before keep theirs.
  lemma SpotKept(c: Columns, pos: seq<Pos>, m: nat, l: nat, i: nat)
    requires ValidColumns(c) && m <= c.top && PlacedBelow(c, pos, m) && l <= m && i < |RowAt(c, l)|
    ensures RowAt(c, l)[i] < |pos| && NextColumn(c, pos, m)[RowAt(c, l)[i]] == Spot(c, l, i)
  {
    var row, u := RowAt(c, m), RowAt(c, l)[i];
    RowElements(c.lv, m, |c.lv|);
    RowElements(c.lv, l, |c.lv|);
    AfterRowAt(pos, c.sizes, row, ColumnX(c, m), Widest(c.sizes, row), (ContentH(c) - ColumnH(c.sizes, row)) / 2.0, |row|, u);
    if l < m {
      assert pos[u] == Spot(c, l, i);
      assert c.lv[u] == l && forall j | 0 <= j < |row| :: row[j] != u;
    }
  }

  lemma OneMoreColumn(c: Columns, pos: seq<Pos>, m: nat)
    requires ValidColumns(c) && m <= c.top && PlacedBelow(c, pos, m)
    ensures PlacedBelow(c, NextColumn(c, pos, m), m + 1)
  {
    var pos1 := NextColumn(c, pos, m);
    forall l: nat, i: nat {:trigger Spot(c, l, i)} | l < m + 1 && i < |RowAt(c, l)| ensures pos1[RowAt(c, l)[i]] == Spot(c, l, i) {
      SpotKept(c, pos, m, l, i);
    }
  }

  ghost predicate KnowsRows(c: Columns, byLevel: map<nat, seq<nat>>)
    requires ValidColumns(c)
  {
    forall l: nat {:trigger RowIn(byLevel, l)} :: RowIn(byLevel, l) == RowAt(c, l)
  }

  ghost predicate Measured(c: Columns, colW: seq<real>, colH: seq<real>, n: nat)
    requires ValidColumns(c)
  {
    && |colW| == n == |colH|
    && (forall l: nat {:trigger colW[l]} | l < n :: colW[l] == Widest(c.sizes, RowAt(c, l)))
    && (forall l: nat {:trigger colH[l]} | l < n :: colH[l] == ColumnH(c.sizes, RowAt(c, l)))
  }

  lemma OneMoreMeasured(c: Columns, colW: seq<real>, colH: seq<real>, n: nat, w: real, h: real)
    requires ValidColumns(c) && Measured(c, colW, colH, n)
    requires w == Widest(c.sizes, RowAt(c, n)) && h == ColumnH(c.sizes, RowAt(c, n))
    ensures Measured(c, colW + [w], colH + [h], n + 1)
  {
    var ws, hs := colW + [w], colH + [h];
    forall l: nat | l < n + 1 ensures ws[l] == Widest(c.sizes, RowAt(c, l)) && hs[l] == ColumnH(c.sizes, RowAt(c, l)) {
      assert l < n ==> ws[l] == colW[l] && hs[l] == colH[l];
    }
  }

  // The columns' widths and heights.
  method MeasureColumns(c: Columns, byLevel: map<nat, seq<nat>>) returns (colW: seq<real>, colH: seq<real>)
    requires ValidColumns(c) && KnowsRows(c, byLevel)
    ensures Measured(c, colW, colH, c.top + 1)
  {
    colW, colH := [], [];
    for l := 0 to c.top + 1
      invariant Measured(c, colW, colH, l)
    {
      var w, h := MeasureColumn(c.sizes, RowIn(byLevel, l));
      OneMoreMeasured(c, colW, colH, l, w, h);
      colW, colH := colW + [w], colH + [h];
    }
  }

  ghost function WidthUpTo(c: Columns, l: nat): real
    requires ValidColumns(c)
  {
    if l == c.top + 1 then ContentW(c) else ColumnX(c, l)
  }

  lemma OneWider(c: Columns, l: nat, w: real, h: real, contentW: real, contentH: real)
    requires ValidColumns(c) && l <= c.top && w == Widest(c.sizes, RowAt(c, l)) && h == ColumnH(c.sizes, RowAt(c, l))
    requires contentW == WidthUpTo(c, l) && contentH == Tallest(c, l)
    ensures WidthUpTo(c, l + 1) == contentW + w + if l < c.top then H_GAP else 0.0
    ensures Tallest(c, l + 1) == if h > contentH then h else contentH
  {
  }

  // The size of the whole.
  method Measure(c: Columns, colW: seq<real>, colH: seq<real>) returns (contentW: real, contentH: real)
    requires ValidColumns(c) && Measured(c, colW, colH, c.top + 1)
    ensures contentW == ContentW(c) && contentH == ContentH(c)
  {
    contentW, contentH := 0.0, 0.0;
    for l := 0 to c.top + 1
      invariant contentW == WidthUpTo(c, l) && contentH == Tallest(c, l)
    {
      OneWider(c, l, colW[l], colH[l], contentW, contentH);
      contentW := contentW + colW[l];
      if l < c.top {
        contentW := contentW + H_GAP;
      }
      if colH[l] > contentH {
        contentH := colH[l];
      }
    }
  }

  function AtOrigin(n: nat): (pos: seq<Pos>)
    ensures |pos| == n
  {
    seq(n, _ => Pos(0.0, 0.0))
  }

  // Positions once the first m columns are placed.
  ghost function Through(c: Columns, m: nat): (pos: seq<Pos>)
    requires ValidColumns(c)
    ensures |pos| == |c.sizes|
  {
    if m == 0 then AtOrigin(|c.sizes|) else NextColumn(c, Through(c, m - 1), m - 1)
  }

  lemma {:induction false} ThroughPlaced(c: Columns, m: nat)
    requires ValidColumns(c) && m <= c.top + 1
    ensures PlacedBelow(c, Through(c, m), m)
  {
    if m > 0 {
      ThroughPlaced(c, m - 1);
      OneMoreColumn(c, Through(c, m - 1), m - 1);
    }
  }

  lemma AllPlaced(c: Columns)
    requires ValidColumns(c)
    ensures Placed(c, Through(c, c.top + 1))
  {
    ThroughPlaced(c, c.top + 1);
  }

  lemma ThroughNext(c: Columns, m: nat)
    requires ValidColumns(c)
    ensures Through(c, m + 1) == NextColumn(c, Through(c, m), m)
  {
  }

  lemma SameColumn(c: Columns, pos: seq<Pos>, l: nat, row: seq<nat>, x: real, w: real, y: real)
    requires ValidColumns(c) && |pos| == |c.sizes| && row == RowAt(c, l)
    requires x == ColumnX(c, l) && w == Widest(c.sizes, row) && y == (ContentH(c) - ColumnH(c.sizes, row)) / 2.0
    ensures AfterRow(pos, c.sizes, row, x, w, y, |row|) == NextColumn(c, pos, l)
    ensures x + w + H_GAP == ColumnX(c, l + 1)
  {
  }

  // The units of column l, whose left edge is x.
  method PlaceNext(c: Columns, row: seq<nat>, w: real, h: real, contentH: real, l: nat, x: real, before: seq<Pos>) returns (pos: seq<Pos>, next: real)
    requires ValidColumns(c) && |before| == |c.sizes| && row == RowAt(c, l) && x == ColumnX(c, l) && contentH == ContentH(c)
    requires w == Widest(c.sizes, row) && h == ColumnH(c.sizes, row)
    ensures pos == NextColumn(c, before, l) && next == ColumnX(c, l + 1)
  {
    var y := (contentH - h) / 2.0;
    SameColumn(c, before, l, row, x, w, y);
    pos := PlaceColumn(c.sizes, row, x, w, y, before);
    next := x + w + H_GAP;
  }

  method PlaceColumns(c: Columns, byLevel: map<nat, seq<nat>>, colW: seq<real>, colH: seq<real>, contentH: real) returns (pos: seq<Pos>)
    requires ValidColumns(c) && KnowsRows(c, byLevel) && Measured(c, colW, colH, c.top + 1) && contentH == ContentH(c)
    ensures Placed(c, pos)
  {
    pos := AtOrigin(|c.sizes|);
    var x := 0.0;
    for l := 0 to c.top + 1
      invariant x == ColumnX(c, l) && pos == Through(c, l)
    {
      ThroughNext(c, l);
      pos, x := PlaceNext(c, RowIn(byLevel, l), colW[l], colH[l], contentH, l, x, pos);
    }
    AllPlaced(c);
  }

  method PlaceUnits(sizes: seq<Size>, level: map<nat, nat>) returns (pos: seq<Pos>, contentW: real, contentH: real, ghost c: Columns)
    requires Sizes(sizes)
    ensures ValidColumns(c) && c.sizes == sizes && Placed(c, pos)
    ensures forall u | 0 <= u < |sizes| :: c.lv[u] == LevelOf(level, u)
    ensures contentW == ContentW(c) && contentH == ContentH(c)
    ensures sizes != [] ==> TopHasUnits(c)
  {
    var byLevel, top, lv := GroupByLevel(sizes, level);
    var cols := Columns(sizes, lv, top);
    c := cols;
    var colW, colH := MeasureColumns(cols, byLevel);
    contentW, contentH := Measure(cols, colW, colH);
    pos := PlaceColumns(cols, byLevel, colW, colH, contentH);
  }
}
