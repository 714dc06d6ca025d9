// Dijkstra's search with lazy deletion over any finite graph with non-negative
// edges: what its tables and its heap say while it runs, and why the first time
// the goal is popped its distance is the least.

module ShortestPaths {
  import opened Collections
  import opened Schema

  // The weight of the edge between two nodes, if there is one.
  type Edges<!N(!new)> = (N, N) -> Option<real>

  ghost predicate NonNegative<N(!new)>(edge: Edges<N>) {
    forall u, v {:trigger edge(u, v)} :: edge(u, v).Some? ==> edge(u, v).value >= 0.0
  }

  ghost predicate Walk<N(!new)>(edge: Edges<N>, p: seq<N>) {
    p != [] && forall i, j | 0 <= i < j < |p| && j == i + 1 :: edge(p[i], p[j]).Some?
  }

  ghost function Cost<N(!new)>(edge: Edges<N>, p: seq<N>): real
    requires Walk(edge, p)
  {
    if |p| == 1 then 0.0 else Cost(edge, p[..|p| - 1]) + edge(p[|p| - 2], p[|p| - 1]).value
  }

  ghost predicate WalkTo<N(!new)>(edge: Edges<N>, start: N, n: N, p: seq<N>) {
    Walk(edge, p) && p[0] == start && p[|p| - 1] == n
  }

  lemma Extend<N(!new)>(edge: Edges<N>, start: N, u: N, p: seq<N>, v: N)
    requires WalkTo(edge, start, u, p) && edge(u, v).Some?
    ensures WalkTo(edge, start, v, p + [v]) && Cost(edge, p + [v]) == Cost(edge, p) + edge(u, v).value
  {
    assert (p + [v])[..|p|] == p;
  }

  // ---- the search -----------------------------------------------------------------------------

  datatype Item<N> = Item(node: N, dist: real)

  // The nodes reached so far, with the walk that reached each, and those settled.
  datatype Search<N> = Search(dist: map<N, real>, walk: map<N, seq<N>>, settled: set<N>)

  ghost predicate Reached<N(!new)>(edge: Edges<N>, start: N, s: Search<N>, n: N)
    requires n in s.dist
  {
    && n in s.walk
    && WalkTo(edge, start, n, s.walk[n]) && Cost(edge, s.walk[n]) == s.dist[n]
    && (n != start ==>
          && |s.walk[n]| >= 2
          && s.walk[n][|s.walk[n]| - 2] in s.settled
          && s.walk[n][|s.walk[n]| - 2] in s.walk
          && s.walk[n] == s.walk[s.walk[n][|s.walk[n]| - 2]] + [n])
  }

  predicate Queued<N(==)>(heap: seq<Item<N>>, n: N, d: real) {
    Item(n, d) in heap
  }

  // A settled node whose edges have been relaxed.
  ghost predicate Relaxed<N(!new)>(edge: Edges<N>, s: Search<N>, u: N)
    requires u in s.dist
  {
    forall v :: edge(u, v).Some? ==> v in s.dist && s.dist[v] <= s.dist[u] + edge(u, v).value
  }

  // Every recorded distance is that of the recorded walk.
  ghost predicate Recorded<N(!new)>(edge: Edges<N>, start: N, s: Search<N>) {
    && start in s.dist && s.dist[start] == 0.0 && start in s.walk && s.walk[start] == [start]
    && s.settled <= s.dist.Keys && s.walk.Keys == s.dist.Keys
    && forall n {:trigger Reached(edge, start, s, n)} | n in s.dist :: Reached(edge, start, s, n)
  }

  // What is queued lies behind what is settled, and nothing unsettled is missing.
  ghost predicate Ordered<N(!new)>(s: Search<N>, heap: seq<Item<N>>) {
    && s.settled <= s.dist.Keys
    && (forall n {:trigger Queued(heap, n, s.dist[n])} | n in s.dist && n !in s.settled :: Queued(heap, n, s.dist[n]))
    && (forall e | e in heap :: e.node in s.dist && s.dist[e.node] <= e.dist)
    && (forall u, e | u in s.settled && e in heap :: s.dist[u] <= e.dist)
    && (forall e | e in heap && e.node in s.settled :: s.dist[e.node] < e.dist)
    && Distinct(heap)
  }

  ghost predicate Sound<N(!new)>(edge: Edges<N>, start: N, s: Search<N>, heap: seq<Item<N>>) {
    Recorded(edge, start, s) && Ordered(s, heap)
  }

  ghost predicate Inv<N(!new)>(edge: Edges<N>, start: N, s: Search<N>, heap: seq<Item<N>>) {
    && Sound(edge, start, s, heap)
    && forall u {:trigger Relaxed(edge, s, u)} | u in s.settled :: Relaxed(edge, s, u)
  }

  lemma InitInv<N(!new)>(edge: Edges<N>, start: N)
    ensures Inv(edge, start, Search(map[start := 0.0], map[start := [start]], {}), [Item(start, 0.0)])
  {
  }

  // The heap without the item that was popped.
  ghost predicate Popped<N(!new)>(heap: seq<Item<N>>, e: Item<N>, rest: seq<Item<N>>) {
    && e in heap
    && (forall x | x in rest :: x in heap && x != e)
    && Distinct(rest)
    && (forall x | x in heap && x != e :: x in rest)
    && forall x | x in heap :: e.dist <= x.dist
  }

  // An item that a shorter walk has overtaken is dropped.
  lemma DropStale<N(!new)>(edge: Edges<N>, start: N, s: Search<N>, heap: seq<Item<N>>, e: Item<N>, rest: seq<Item<N>>)
    requires Inv(edge, start, s, heap) && Popped(heap, e, rest) && e.dist > s.dist[e.node]
    ensures Inv(edge, start, s, rest)
  {
    forall n | n in s.dist && n !in s.settled ensures Queued(rest, n, s.dist[n]) {
      assert Queued(heap, n, s.dist[n]) && Item(n, s.dist[n]) != e;
    }
  }

  // While the edges of c are being relaxed, the other settled nodes are relaxed,
  // and none is farther than c.
  ghost predicate Relaxing<N(!new)>(edge: Edges<N>, start: N, s: Search<N>, heap: seq<Item<N>>, c: N) {
    && Sound(edge, start, s, heap)
    && c in s.settled
    && (forall u | u in s.settled :: s.dist[u] <= s.dist[c])
    && forall u {:trigger Relaxed(edge, s, u)} | u in s.settled && u != c :: Relaxed(edge, s, u)
  }

  lemma Settle<N(!new)>(edge: Edges<N>, start: N, s: Search<N>, heap: seq<Item<N>>, e: Item<N>, rest: seq<Item<N>>)
    requires Inv(edge, start, s, heap) && Popped(heap, e, rest) && e.dist <= s.dist[e.node]
    ensures s.dist[e.node] == e.dist && e.node !in s.settled
    ensures Relaxing(edge, start, s.(settled := s.settled + {e.node}), rest, e.node)
  {
    var s1 := s.(settled := s.settled + {e.node});
    forall n | n in s1.dist ensures Reached(edge, start, s1, n) {
      assert Reached(edge, start, s, n);
    }
    forall n | n in s1.dist && n !in s1.settled ensures Queued(rest, n, s1.dist[n]) {
      assert Queued(heap, n, s.dist[n]);
    }
    forall u | u in s1.settled && u != e.node ensures Relaxed(edge, s1, u) {
      assert Relaxed(edge, s, u);
    }
  }

  ghost function Improved<N(!new)>(s: Search<N>, c: N, v: N, cost: real): Search<N>
    requires c in s.walk
  {
    s.(dist := s.dist[v := cost], walk := s.walk[v := s.walk[c] + [v]])
  }

  // A walk to v that is shorter than the one on record, if there is one.
  ghost predicate Better<N(!new)>(edge: Edges<N>, start: N, s: Search<N>, heap: seq<Item<N>>, c: N, v: N) {
    && NonNegative(edge) && Relaxing(edge, start, s, heap, c) && edge(c, v).Some?
    && (v !in s.dist || s.dist[c] + edge(c, v).value < s.dist[v])
  }

  lemma BetterIsNew<N(!new)>(edge: Edges<N>, start: N, s: Search<N>, heap: seq<Item<N>>, c: N, v: N)
    requires Better(edge, start, s, heap, c, v)
    ensures v !in s.settled && v != start && c != v
  {
    assert Reached(edge, start, s, c);
    CostIsNonNegative(edge, s.walk[c]);
  }

  lemma ImprovedReached<N(!new)>(edge: Edges<N>, start: N, s: Search<N>, heap: seq<Item<N>>, c: N, v: N, n: N)
    requires Better(edge, start, s, heap, c, v) && (n in s.dist || n == v)
    ensures Reached(edge, start, Improved(s, c, v, s.dist[c] + edge(c, v).value), n)
  {
    BetterIsNew(edge, start, s, heap, c, v);
    assert Reached(edge, start, s, c);
    if n == v {
      Extend(edge, start, c, s.walk[c], v);
    } else {
      assert Reached(edge, start, s, n);
    }
  }

  // Everything queued for v so far is farther.
  lemma PushedDistinct<N(!new)>(edge: Edges<N>, start: N, s: Search<N>, heap: seq<Item<N>>, c: N, v: N)
    requires Better(edge, start, s, heap, c, v)
    ensures Distinct(heap + [Item(v, s.dist[c] + edge(c, v).value)])
  {
    forall i | 0 <= i < |heap| ensures heap[i] != Item(v, s.dist[c] + edge(c, v).value) {
      assert heap[i] in heap;
    }
  }

  // What is queued stays in order, and the new entry is behind every settled node.
  lemma PushedQueue<N(!new)>(edge: Edges<N>, start: N, s: Search<N>, heap: seq<Item<N>>, c: N, v: N, e: Item<N>)
    requires Better(edge, start, s, heap, c, v) && e in heap + [Item(v, s.dist[c] + edge(c, v).value)]
    ensures var s1 := Improved(s, c, v, s.dist[c] + edge(c, v).value);
      && e.node in s1.dist && s1.dist[e.node] <= e.dist
      && (forall u | u in s1.settled :: u in s1.dist && s1.dist[u] <= e.dist)
      && (e.node in s1.settled ==> s1.dist[e.node] < e.dist)
  {
    BetterIsNew(edge, start, s, heap, c, v);
    assert e in heap || e == Item(v, s.dist[c] + edge(c, v).value);
  }

  lemma StillQueued<N(!new)>(edge: Edges<N>, start: N, s: Search<N>, heap: seq<Item<N>>, c: N, v: N, n: N)
    requires Better(edge, start, s, heap, c, v) && (n in s.dist || n == v) && n !in s.settled
    ensures var cost := s.dist[c] + edge(c, v).value;
      Queued(heap + [Item(v, cost)], n, Improved(s, c, v, cost).dist[n])
  {
    var cost := s.dist[c] + edge(c, v).value;
    if n == v {
      assert (heap + [Item(v, cost)])[|heap|] == Item(v, cost);
    } else {
      assert Queued(heap, n, s.dist[n]);
    }
  }

  lemma ImprovedRecorded<N(!new)>(edge: Edges<N>, start: N, s: Search<N>, heap: seq<Item<N>>, c: N, v: N)
    requires Better(edge, start, s, heap, c, v)
    ensures Recorded(edge, start, Improved(s, c, v, s.dist[c] + edge(c, v).value))
  {
    var s1 := Improved(s, c, v, s.dist[c] + edge(c, v).value);
    BetterIsNew(edge, start, s, heap, c, v);
    forall n | n in s1.dist ensures Reached(edge, start, s1, n) {
      ImprovedReached(edge, start, s, heap, c, v, n);
    }
  }

  lemma ImprovedOrdered<N(!new)>(edge: Edges<N>, start: N, s: Search<N>, heap: seq<Item<N>>, c: N, v: N)
    requires Better(edge, start, s, heap, c, v)
    ensures var cost := s.dist[c] + edge(c, v).value;
      Ordered(Improved(s, c, v, cost), heap + [Item(v, cost)])
  {
    var cost := s.dist[c] + edge(c, v).value;
    var s1, heap1 := Improved(s, c, v, cost), heap + [Item(v, cost)];
    PushedDistinct(edge, start, s, heap, c, v);
    forall n | n in s1.dist && n !in s1.settled ensures Queued(heap1, n, s1.dist[n]) {
      StillQueued(edge, start, s, heap, c, v, n);
    }
    forall e | e in heap1
      ensures e.node in s1.dist && s1.dist[e.node] <= e.dist && (e.node in s1.settled ==> s1.dist[e.node] < e.dist)
      ensures forall u | u in s1.settled :: s1.dist[u] <= e.dist
    {
      PushedQueue(edge, start, s, heap, c, v, e);
    }
  }

  // One edge: a shorter walk to v is recorded and queued.
  lemma Improve<N(!new)>(edge: Edges<N>, start: N, s: Search<N>, heap: seq<Item<N>>, c: N, v: N)
    requires Better(edge, start, s, heap, c, v)
    ensures var cost := s.dist[c] + edge(c, v).value;
      Relaxing(edge, start, Improved(s, c, v, cost), heap + [Item(v, cost)], c)
  {
    var s1 := Improved(s, c, v, s.dist[c] + edge(c, v).value);
    BetterIsNew(edge, start, s, heap, c, v);
    ImprovedRecorded(edge, start, s, heap, c, v);
    ImprovedOrdered(edge, start, s, heap, c, v);
    forall u | u in s1.settled && u != c ensures Relaxed(edge, s1, u) {
      assert Relaxed(edge, s, u);
    }
  }

  lemma {:induction false} CostIsNonNegative<N(!new)>(edge: Edges<N>, p: seq<N>)
    requires NonNegative(edge) && Walk(edge, p)
    ensures Cost(edge, p) >= 0.0
  {
    if |p| > 1 {
      CostIsNonNegative(edge, p[..|p| - 1]);
    }
  }

  lemma RelaxedAll<N(!new)>(edge: Edges<N>, start: N, s: Search<N>, heap: seq<Item<N>>, c: N)
    requires Relaxing(edge, start, s, heap, c) && Relaxed(edge, s, c)
    ensures Inv(edge, start, s, heap)
  {
  }

  // ---- optimality ------------------------------------------------------------------------------------

  // No walk from the start is cheaper than both the recorded distance of its last
  // node and everything still queued.
  lemma {:induction false} NoCheaperWalk<N(!new)>(edge: Edges<N>, start: N, s: Search<N>, heap: seq<Item<N>>, p: seq<N>, bound: real)
    requires NonNegative(edge) && Inv(edge, start, s, heap) && Walk(edge, p) && p[0] == start
    requires forall e | e in heap :: e.dist >= bound
    ensures Cost(edge, p) >= bound || (p[|p| - 1] in s.dist && Cost(edge, p) >= s.dist[p[|p| - 1]])
    decreases |p|
  {
    if |p| > 1 {
      var front, u, v := p[..|p| - 1], p[|p| - 2], p[|p| - 1];
      assert edge(u, v).Some?;
      NoCheaperWalk(edge, start, s, heap, front, bound);
      if Cost(edge, front) < bound {
        assert u in s.settled || Queued(heap, u, s.dist[u]);
        assert Relaxed(edge, s, u);
      }
    }
  }

  // With nothing queued, every node a walk leads to has been reached.
  lemma {:induction false} AllReached<N(!new)>(edge: Edges<N>, start: N, s: Search<N>, p: seq<N>)
    requires NonNegative(edge) && Inv(edge, start, s, []) && Walk(edge, p) && p[0] == start
    ensures p[|p| - 1] in s.dist
    decreases |p|
  {
    if |p| > 1 {
      var u, v := p[|p| - 2], p[|p| - 1];
      assert edge(u, v).Some?;
      AllReached(edge, start, s, p[..|p| - 1]);
      assert u in s.settled || Queued([], u, s.dist[u]);
      assert Relaxed(edge, s, u);
    }
  }
}
