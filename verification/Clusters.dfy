// The layout tree, built from the flat lists of groups and nodes: every group and
// node has one place in it, so what is proved of trees whose names are distinct
// holds of every drawing.

module Clusters {
  import opened Names
  import opened Boxes

  datatype Group = Group(name: Str, parent: Str, deps: seq<Str>)

  datatype Node = Node(name: Str, group: Str)

  predicate Known(groups: seq<Group>, key: Str) {
    exists i :: 0 <= i < |groups| && groups[i].name == key
  }

  // A group whose parent is missing or is itself hangs off the root, whose key is
  // Empty.
  function ParentOf(groups: seq<Group>, g: Group): Str {
    if g.parent != g.name && Known(groups, g.parent) then g.parent else Empty
  }

  function HomeOf(groups: seq<Group>, n: Node): Str {
    if Known(groups, n.group) then n.group else Empty
  }

  // The keys of a cluster's children, among the first m groups, in list order.
  function ChildKeys(groups: seq<Group>, key: Str, m: nat): seq<Str>
    requires m <= |groups|
  {
    if m == 0 then []
    else ChildKeys(groups, key, m - 1) + if ParentOf(groups, groups[m - 1]) == key then [groups[m - 1].name] else []
  }

  function Members(groups: seq<Group>, nodes: seq<Node>, key: Str, m: nat): seq<Str>
    requires m <= |nodes|
  {
    if m == 0 then []
    else Members(groups, nodes, key, m - 1) + if HomeOf(groups, nodes[m - 1]) == key then [nodes[m - 1].name] else []
  }

  // The last of the first m groups of that name.
  function DepsOf(groups: seq<Group>, key: Str, m: nat): seq<Str>
    requires m <= |groups|
  {
    if m == 0 then [] else if groups[m - 1].name == key then groups[m - 1].deps else DepsOf(groups, key, m - 1)
  }

  // Names are used once, and no group is nested in itself.
  ghost predicate Forest(groups: seq<Group>, height: map<Str, nat>) {
    && Empty in height
    && (forall k | k in height :: height[k] <= height[Empty])
    && (forall i | 0 <= i < |groups| :: groups[i].name != Empty && groups[i].name in height)
    && (forall i, j | 0 <= i < j < |groups| :: groups[i].name != groups[j].name)
    && (forall i | 0 <= i < |groups| :: ParentOf(groups, groups[i]) in height
          && height[groups[i].name] < height[ParentOf(groups, groups[i])])
  }

  predicate NodesDiffer(nodes: seq<Node>) {
    forall i, j | 0 <= i < j < |nodes| :: nodes[i].name != nodes[j].name
  }

  lemma {:induction false} ChildIsGroup(groups: seq<Group>, key: Str, m: nat, i: nat) returns (g: nat)
    requires m <= |groups| && i < |ChildKeys(groups, key, m)|
    ensures g < m && groups[g].name == ChildKeys(groups, key, m)[i] && ParentOf(groups, groups[g]) == key
  {
    if i < |ChildKeys(groups, key, m - 1)| {
      g := ChildIsGroup(groups, key, m - 1, i);
    } else {
      g := m - 1;
    }
  }

  lemma {:induction false} GroupIsChild(groups: seq<Group>, key: Str, m: nat, g: nat) returns (i: nat)
    requires g < m <= |groups| && ParentOf(groups, groups[g]) == key
    ensures i < |ChildKeys(groups, key, m)| && ChildKeys(groups, key, m)[i] == groups[g].name
  {
    if g == m - 1 {
      i := |ChildKeys(groups, key, m - 1)|;
    } else {
      i := GroupIsChild(groups, key, m - 1, g);
    }
  }

  lemma {:induction false} ChildrenDiffer(groups: seq<Group>, height: map<Str, nat>, key: Str, m: nat, i: nat, j: nat)
    requires Forest(groups, height) && m <= |groups| && i < j < |ChildKeys(groups, key, m)|
    ensures ChildKeys(groups, key, m)[i] != ChildKeys(groups, key, m)[j]
  {
    if j < |ChildKeys(groups, key, m - 1)| {
      ChildrenDiffer(groups, height, key, m - 1, i, j);
    } else {
      var g := ChildIsGroup(groups, key, m - 1, i);
    }
  }

  lemma {:induction false} MemberIsNode(groups: seq<Group>, nodes: seq<Node>, key: Str, m: nat, i: nat) returns (n: nat)
    requires m <= |nodes| && i < |Members(groups, nodes, key, m)|
    ensures n < m && nodes[n].name == Members(groups, nodes, key, m)[i] && HomeOf(groups, nodes[n]) == key
  {
    if i < |Members(groups, nodes, key, m - 1)| {
      n := MemberIsNode(groups, nodes, key, m - 1, i);
    } else {
      n := m - 1;
    }
  }

  lemma {:induction false} NodeIsMember(groups: seq<Group>, nodes: seq<Node>, key: Str, m: nat, n: nat)
    requires n < m <= |nodes| && HomeOf(groups, nodes[n]) == key
    ensures nodes[n].name in Members(groups, nodes, key, m)
  {
    if n < m - 1 {
      NodeIsMember(groups, nodes, key, m - 1, n);
    }
  }

  lemma {:induction false} MembersDiffer(groups: seq<Group>, nodes: seq<Node>, key: Str, m: nat, i: nat, j: nat)
    requires NodesDiffer(nodes) && m <= |nodes| && i < j < |Members(groups, nodes, key, m)|
    ensures Members(groups, nodes, key, m)[i] != Members(groups, nodes, key, m)[j]
  {
    if j < |Members(groups, nodes, key, m - 1)| {
      MembersDiffer(groups, nodes, key, m - 1, i, j);
    } else {
      var n := MemberIsNode(groups, nodes, key, m - 1, i);
    }
  }

  // ---- ancestors ------------------------------------------------------------------------

  ghost function IndexOf(groups: seq<Group>, key: Str): (i: nat)
    requires Known(groups, key)
    ensures i < |groups| && groups[i].name == key
  {
    var i :| 0 <= i < |groups| && groups[i].name == key;
    i
  }

  // `key` is `a` or an ancestor of it.
  ghost predicate Under(groups: seq<Group>, height: map<Str, nat>, a: Str, key: Str)
    requires Forest(groups, height) && a in height
    decreases height[Empty] - height[a]
  {
    a == key || (Known(groups, a) && Under(groups, height, ParentOf(groups, groups[IndexOf(groups, a)]), key))
  }

  lemma {:induction false} UnderIsHigher(groups: seq<Group>, height: map<Str, nat>, a: Str, key: Str)
    requires Forest(groups, height) && a in height && Under(groups, height, a, key)
    ensures key in height && height[a] <= height[key] && (a != key ==> height[a] < height[key])
    decreases height[Empty] - height[a]
  {
    if a != key {
      UnderIsHigher(groups, height, ParentOf(groups, groups[IndexOf(groups, a)]), key);
    }
  }

  lemma {:induction false} UnderTrans(groups: seq<Group>, height: map<Str, nat>, a: Str, b: Str, c: Str)
    requires Forest(groups, height) && a in height && Under(groups, height, a, b) && b in height && Under(groups, height, b, c)
    ensures Under(groups, height, a, c)
    decreases height[Empty] - height[a]
  {
    if a != b {
      UnderTrans(groups, height, ParentOf(groups, groups[IndexOf(groups, a)]), b, c);
    }
  }

  // The ancestors of a cluster are in line.
  lemma {:induction false} InLine(groups: seq<Group>, height: map<Str, nat>, a: Str, b: Str, c: Str)
    requires Forest(groups, height) && a in height && Under(groups, height, a, b) && Under(groups, height, a, c)
    ensures b in height && c in height && (Under(groups, height, b, c) || Under(groups, height, c, b))
    decreases height[Empty] - height[a]
  {
    UnderIsHigher(groups, height, a, b);
    UnderIsHigher(groups, height, a, c);
    if a != b && a != c {
      InLine(groups, height, ParentOf(groups, groups[IndexOf(groups, a)]), b, c);
    }
  }

  lemma {:induction false} UnderRoot(groups: seq<Group>, height: map<Str, nat>, a: Str)
    requires Forest(groups, height) && a in height && (a == Empty || Known(groups, a))
    ensures Under(groups, height, a, Empty)
    decreases height[Empty] - height[a]
  {
    if a != Empty {
      UnderRoot(groups, height, ParentOf(groups, groups[IndexOf(groups, a)]));
    }
  }

  ghost predicate IsChild(groups: seq<Group>, child: Str, key: Str) {
    Known(groups, child) && ParentOf(groups, groups[IndexOf(groups, child)]) == key
  }

  lemma ChildAt(groups: seq<Group>, height: map<Str, nat>, key: Str, i: nat)
    requires Forest(groups, height) && i < |ChildKeys(groups, key, |groups|)|
    ensures IsChild(groups, ChildKeys(groups, key, |groups|)[i], key)
    ensures var ch := ChildKeys(groups, key, |groups|)[i];
      ch != Empty && ch in height && key in height && height[ch] < height[key] && Under(groups, height, ch, key)
  {
    var g := ChildIsGroup(groups, key, |groups|, i);
    var ch := groups[g].name;
    assert IndexOf(groups, ch) == g;
    assert Under(groups, height, key, key);
  }

  // Below a cluster is below one of its children.
  lemma {:induction false} LastStep(groups: seq<Group>, height: map<Str, nat>, a: Str, key: Str) returns (i: nat)
    requires Forest(groups, height) && a in height && Under(groups, height, a, key) && a != key
    ensures i < |ChildKeys(groups, key, |groups|)| && Under(groups, height, a, ChildKeys(groups, key, |groups|)[i])
    decreases height[Empty] - height[a]
  {
    var g := IndexOf(groups, a);
    if ParentOf(groups, groups[g]) == key {
      i := GroupIsChild(groups, key, |groups|, g);
    } else {
      i := LastStep(groups, height, ParentOf(groups, groups[g]), key);
    }
  }

  // Different children of a cluster have nothing below both.
  lemma SiblingsApart(groups: seq<Group>, height: map<Str, nat>, key: Str, b: Str, c: Str, a: Str)
    requires Forest(groups, height) && a in height && IsChild(groups, b, key) && IsChild(groups, c, key) && b != c
    requires Under(groups, height, a, b)
    ensures !Under(groups, height, a, c)
  {
    if Under(groups, height, a, c) {
      InLine(groups, height, a, b, c);
      NotUnderSibling(groups, height, key, b, c);
      NotUnderSibling(groups, height, key, c, b);
      assert false;
    }
  }

  lemma NotUnderSibling(groups: seq<Group>, height: map<Str, nat>, key: Str, b: Str, c: Str)
    requires Forest(groups, height) && b in height && IsChild(groups, b, key) && IsChild(groups, c, key) && b != c
    ensures !Under(groups, height, b, c)
  {
    if Under(groups, height, key, c) {
      UnderIsHigher(groups, height, key, c);
    }
  }

  // ---- the tree --------------------------------------------------------------------------

  ghost function Tree(groups: seq<Group>, nodes: seq<Node>, height: map<Str, nat>, key: Str): (c: Cluster)
    requires Forest(groups, height) && key in height
    ensures c.key == key
    decreases height[key]
  {
    var keys := ChildKeys(groups, key, |groups|);
    Cluster(key, DepsOf(groups, key, |groups|), Members(groups, nodes, key, |nodes|),
            seq(|keys|, i requires 0 <= i < |keys| => Child(groups, nodes, height, key, i)))
  }

  ghost function Child(groups: seq<Group>, nodes: seq<Node>, height: map<Str, nat>, key: Str, i: nat): Cluster
    requires Forest(groups, height) && key in height && i < |ChildKeys(groups, key, |groups|)|
    decreases height[key], 0
  {
    ChildAt(groups, height, key, i);
    Tree(groups, nodes, height, ChildKeys(groups, key, |groups|)[i])
  }

  lemma TreeChild(groups: seq<Group>, nodes: seq<Node>, height: map<Str, nat>, key: Str, i: nat) returns (ch: Str)
    requires Forest(groups, height) && key in height && i < |Tree(groups, nodes, height, key).children|
    ensures i < |ChildKeys(groups, key, |groups|)| && ch == ChildKeys(groups, key, |groups|)[i]
    ensures ch != Empty && ch in height && height[ch] < height[key] && IsChild(groups, ch, key) && Under(groups, height, ch, key)
    ensures Tree(groups, nodes, height, key).children[i] == Tree(groups, nodes, height, ch)
  {
    ch := ChildKeys(groups, key, |groups|)[i];
    ChildAt(groups, height, key, i);
  }

  // A node is in the subtree of its own cluster and of the ancestors of it.
  ghost predicate Below(groups: seq<Group>, nodes: seq<Node>, height: map<Str, nat>, name: Str, key: Str)
    requires Forest(groups, height)
  {
    exists n :: 0 <= n < |nodes| && nodes[n].name == name && HomeIn(groups, nodes[n], height, key)
  }

  ghost predicate HomeIn(groups: seq<Group>, n: Node, height: map<Str, nat>, key: Str)
    requires Forest(groups, height)
  {
    HomeOf(groups, n) in height && Under(groups, height, HomeOf(groups, n), key)
  }

  lemma BelowChild(groups: seq<Group>, nodes: seq<Node>, height: map<Str, nat>, name: Str, key: Str, i: nat)
    requires Forest(groups, height) && key in height && i < |ChildKeys(groups, key, |groups|)|
    requires Below(groups, nodes, height, name, ChildKeys(groups, key, |groups|)[i])
    ensures Below(groups, nodes, height, name, key)
  {
    var ch := ChildKeys(groups, key, |groups|)[i];
    var n :| 0 <= n < |nodes| && nodes[n].name == name && HomeIn(groups, nodes[n], height, ch);
    ChildAt(groups, height, key, i);
    UnderTrans(groups, height, HomeOf(groups, nodes[n]), ch, key);
    assert HomeIn(groups, nodes[n], height, key);
  }

  lemma {:induction false} NodesAreBelow(groups: seq<Group>, nodes: seq<Node>, height: map<Str, nat>, key: Str, name: Str)
    requires Forest(groups, height) && key in height && name in NodesOf(Tree(groups, nodes, height, key))
    ensures Below(groups, nodes, height, name, key)
    decreases height[key]
  {
    var c := Tree(groups, nodes, height, key);
    if name in c.nodes {
      var i :| 0 <= i < |c.nodes| && c.nodes[i] == name;
      var n := MemberIsNode(groups, nodes, key, |nodes|, i);
      assert HomeIn(groups, nodes[n], height, key);
    } else {
      var ch :| ch in c.children && name in NodesOf(ch);
      var i :| 0 <= i < |c.children| && c.children[i] == ch;
      var k := TreeChild(groups, nodes, height, key, i);
      NodesAreBelow(groups, nodes, height, k, name);
      BelowChild(groups, nodes, height, name, key, i);
    }
  }

  lemma {:induction false} BelowAreNodes(groups: seq<Group>, nodes: seq<Node>, height: map<Str, nat>, key: Str, n: nat)
    requires Forest(groups, height) && key in height && n < |nodes| && HomeIn(groups, nodes[n], height, key)
    ensures nodes[n].name in NodesOf(Tree(groups, nodes, height, key))
    decreases height[key]
  {
    var c, home := Tree(groups, nodes, height, key), HomeOf(groups, nodes[n]);
    if home == key {
      NodeIsMember(groups, nodes, key, |nodes|, n);
    } else {
      var i := LastStep(groups, height, home, key);
      var k := TreeChild(groups, nodes, height, key, i);
      BelowAreNodes(groups, nodes, height, k, n);
      assert c.children[i] in c.children;
    }
  }

  lemma {:induction false} KeysAreUnder(groups: seq<Group>, nodes: seq<Node>, height: map<Str, nat>, key: Str, k: Str)
    requires Forest(groups, height) && key in height && k in KeysOf(Tree(groups, nodes, height, key))
    ensures k in height && Known(groups, k) && k != key && Under(groups, height, k, key)
    decreases height[key]
  {
    var c := Tree(groups, nodes, height, key);
    var ch :| ch in c.children && (ch.key == k || k in KeysOf(ch));
    var i :| 0 <= i < |c.children| && c.children[i] == ch;
    var b := TreeChild(groups, nodes, height, key, i);
    if ch.key != k {
      KeysAreUnder(groups, nodes, height, ch.key, k);
      UnderTrans(groups, height, k, ch.key, key);
      UnderIsHigher(groups, height, k, ch.key);
    }
  }

  lemma {:induction false} UnderAreKeys(groups: seq<Group>, nodes: seq<Node>, height: map<Str, nat>, key: Str, k: Str)
    requires Forest(groups, height) && key in height && k in height && k != key && Under(groups, height, k, key)
    ensures k in KeysOf(Tree(groups, nodes, height, key))
    decreases height[key]
  {
    var c := Tree(groups, nodes, height, key);
    var i := LastStep(groups, height, k, key);
    var b := TreeChild(groups, nodes, height, key, i);
    assert c.children[i] in c.children;
    if b != k {
      UnderAreKeys(groups, nodes, height, b, k);
    }
  }

  // ---- every name has one place ------------------------------------------------------------

  // Nodes and groups are in the tree, and nothing else is.
  lemma TreeIsWhole(groups: seq<Group>, nodes: seq<Node>, height: map<Str, nat>)
    requires Forest(groups, height)
    ensures NodesOf(Tree(groups, nodes, height, Empty)) == set i | 0 <= i < |nodes| :: nodes[i].name
    ensures KeysOf(Tree(groups, nodes, height, Empty)) == set i | 0 <= i < |groups| :: groups[i].name
  {
    var c := Tree(groups, nodes, height, Empty);
    forall name ensures name in NodesOf(c) <==> exists i :: 0 <= i < |nodes| && nodes[i].name == name {
      if name in NodesOf(c) {
        NodesAreBelow(groups, nodes, height, Empty, name);
      }
      if i :| 0 <= i < |nodes| && nodes[i].name == name {
        UnderRoot(groups, height, HomeOf(groups, nodes[i]));
        BelowAreNodes(groups, nodes, height, Empty, i);
      }
    }
    forall k ensures k in KeysOf(c) <==> exists i :: 0 <= i < |groups| && groups[i].name == k {
      if k in KeysOf(c) {
        KeysAreUnder(groups, nodes, height, Empty, k);
      }
      if i :| 0 <= i < |groups| && groups[i].name == k {
        UnderRoot(groups, height, k);
        UnderAreKeys(groups, nodes, height, Empty, k);
      }
    }
  }

  lemma NotBelowChild(groups: seq<Group>, nodes: seq<Node>, height: map<Str, nat>, key: Str, ch: Str, n: nat)
    requires Forest(groups, height) && NodesDiffer(nodes) && key in height && ch in height && height[ch] < height[key]
    requires n < |nodes| && HomeOf(groups, nodes[n]) == key
    ensures nodes[n].name !in NodesOf(Tree(groups, nodes, height, ch))
  {
    if nodes[n].name in NodesOf(Tree(groups, nodes, height, ch)) {
      NodesAreBelow(groups, nodes, height, ch, nodes[n].name);
      assert HomeIn(groups, nodes[n], height, ch);
      UnderIsHigher(groups, height, key, ch);
    }
  }

  lemma NoNodeTwice(groups: seq<Group>, nodes: seq<Node>, height: map<Str, nat>, key: Str, i: nat)
    requires Forest(groups, height) && NodesDiffer(nodes) && key in height && i < |Tree(groups, nodes, height, key).children|
    ensures NotInChild(Tree(groups, nodes, height, key), i)
  {
    var c := Tree(groups, nodes, height, key);
    var ch := TreeChild(groups, nodes, height, key, i);
    forall name | name in c.nodes ensures name !in NodesOf(c.children[i]) {
      var j :| 0 <= j < |c.nodes| && c.nodes[j] == name;
      var n := MemberIsNode(groups, nodes, key, |nodes|, j);
      NotBelowChild(groups, nodes, height, key, ch, n);
    }
  }

  lemma NotOwnSibling(groups: seq<Group>, nodes: seq<Node>, height: map<Str, nat>, key: Str, b: Str, c: Str)
    requires Forest(groups, height) && b in height && c in height && IsChild(groups, b, key) && IsChild(groups, c, key)
    ensures b !in KeysOf(Tree(groups, nodes, height, c))
  {
    if b in KeysOf(Tree(groups, nodes, height, c)) {
      KeysAreUnder(groups, nodes, height, c, b);
      NotUnderSibling(groups, height, key, b, c);
    }
  }

  lemma NodesApart(groups: seq<Group>, nodes: seq<Node>, height: map<Str, nat>, key: Str, b: Str, c: Str)
    requires Forest(groups, height) && NodesDiffer(nodes) && b in height && c in height && b != c
    requires IsChild(groups, b, key) && IsChild(groups, c, key)
    ensures NodesOf(Tree(groups, nodes, height, b)) !! NodesOf(Tree(groups, nodes, height, c))
    ensures KeysOf(Tree(groups, nodes, height, b)) !! KeysOf(Tree(groups, nodes, height, c))
  {
    forall name | name in NodesOf(Tree(groups, nodes, height, b)) ensures name !in NodesOf(Tree(groups, nodes, height, c)) {
      NodesAreBelow(groups, nodes, height, b, name);
      if name in NodesOf(Tree(groups, nodes, height, c)) {
        NodesAreBelow(groups, nodes, height, c, name);
        var n :| 0 <= n < |nodes| && nodes[n].name == name && HomeIn(groups, nodes[n], height, b);
        assert HomeIn(groups, nodes[n], height, c);
        SiblingsApart(groups, height, key, b, c, HomeOf(groups, nodes[n]));
      }
    }
    forall k | k in KeysOf(Tree(groups, nodes, height, b)) ensures k !in KeysOf(Tree(groups, nodes, height, c)) {
      KeysAreUnder(groups, nodes, height, b, k);
      SiblingsApart(groups, height, key, b, c, k);
      if k in KeysOf(Tree(groups, nodes, height, c)) {
        KeysAreUnder(groups, nodes, height, c, k);
      }
    }
  }

  lemma ChildrenUnrelated(groups: seq<Group>, nodes: seq<Node>, height: map<Str, nat>, key: Str, i: nat, j: nat)
    requires Forest(groups, height) && NodesDiffer(nodes) && key in height && i <= j < |Tree(groups, nodes, height, key).children|
    ensures Unrelated(Tree(groups, nodes, height, key), i, j)
  {
    var b := TreeChild(groups, nodes, height, key, i);
    var c := TreeChild(groups, nodes, height, key, j);
    NotOwnSibling(groups, nodes, height, key, b, c);
    NotOwnSibling(groups, nodes, height, key, c, b);
    if i < j {
      ChildrenDiffer(groups, height, key, |groups|, i, j);
      NodesApart(groups, nodes, height, key, b, c);
    }
  }

  // A forest of groups with distinct names becomes a tree whose names are distinct.
  lemma {:induction false} TreeIsDistinct(groups: seq<Group>, nodes: seq<Node>, height: map<Str, nat>, key: Str)
    requires Forest(groups, height) && NodesDiffer(nodes) && key in height
    ensures Distinct(Tree(groups, nodes, height, key))
    decreases height[key]
  {
    var c := Tree(groups, nodes, height, key);
    forall i, j | 0 <= i < j < |c.nodes| ensures c.nodes[i] != c.nodes[j] {
      MembersDiffer(groups, nodes, key, |nodes|, i, j);
    }
    forall j: nat | j < |c.children| ensures NotInChild(c, j) {
      NoNodeTwice(groups, nodes, height, key, j);
    }
    forall i: nat, j: nat | i <= j < |c.children| ensures Unrelated(c, i, j) {
      ChildrenUnrelated(groups, nodes, height, key, i, j);
    }
    forall ch | ch in c.children ensures ch.key != Empty && Distinct(ch) {
      var i :| 0 <= i < |c.children| && c.children[i] == ch;
      var k := TreeChild(groups, nodes, height, key, i);
      TreeIsDistinct(groups, nodes, height, k);
    }
  }

  // ---- building it -------------------------------------------------------------------------

  function Listed(table: map<Str, seq<Str>>, key: Str): seq<Str> {
    if key in table then table[key] else []
  }

  ghost predicate ChildrenTo(groups: seq<Group>, children: map<Str, seq<Str>>, i: nat) {
    i <= |groups| && forall key {:trigger Listed(children, key)} :: Listed(children, key) == ChildKeys(groups, key, i)
  }

  ghost predicate DepsTo(groups: seq<Group>, deps: map<Str, seq<Str>>, i: nat) {
    i <= |groups| && forall key {:trigger Listed(deps, key)} :: Listed(deps, key) == DepsOf(groups, key, i)
  }

  ghost predicate MembersTo(groups: seq<Group>, nodes: seq<Node>, members: map<Str, seq<Str>>, i: nat) {
    i <= |nodes| && forall key {:trigger Listed(members, key)} :: Listed(members, key) == Members(groups, nodes, key, i)
  }

  ghost predicate Tables(groups: seq<Group>, nodes: seq<Node>, children: map<Str, seq<Str>>, members: map<Str, seq<Str>>, deps: map<Str, seq<Str>>) {
    ChildrenTo(groups, children, |groups|) && DepsTo(groups, deps, |groups|) && MembersTo(groups, nodes, members, |nodes|)
  }

  lemma GroupListed(groups: seq<Group>, children: map<Str, seq<Str>>, deps: map<Str, seq<Str>>, i: nat)
    requires i < |groups| && ChildrenTo(groups, children, i) && DepsTo(groups, deps, i)
    ensures var g, p := groups[i], ParentOf(groups, groups[i]);
      ChildrenTo(groups, children[p := Listed(children, p) + [g.name]], i + 1) && DepsTo(groups, deps[g.name := g.deps], i + 1)
  {
    var g, p := groups[i], ParentOf(groups, groups[i]);
    var children1, deps1 := children[p := Listed(children, p) + [g.name]], deps[g.name := g.deps];
    forall key ensures Listed(children1, key) == ChildKeys(groups, key, i + 1) {
      assert Listed(children, key) == ChildKeys(groups, key, i);
    }
    forall key ensures Listed(deps1, key) == DepsOf(groups, key, i + 1) {
      assert Listed(deps, key) == DepsOf(groups, key, i);
    }
  }

  lemma NodeListed(groups: seq<Group>, nodes: seq<Node>, members: map<Str, seq<Str>>, i: nat)
    requires i < |nodes| && MembersTo(groups, nodes, members, i)
    ensures var home := HomeOf(groups, nodes[i]);
      MembersTo(groups, nodes, members[home := Listed(members, home) + [nodes[i].name]], i + 1)
  {
    var home := HomeOf(groups, nodes[i]);
    var members1 := members[home := Listed(members, home) + [nodes[i].name]];
    forall key ensures Listed(members1, key) == Members(groups, nodes, key, i + 1) {
      assert Listed(members, key) == Members(groups, nodes, key, i);
    }
  }

  // The clusters' children, direct members and dependencies, by key.
  method BuildClusters(groups: seq<Group>, nodes: seq<Node>)
      returns (children: map<Str, seq<Str>>, members: map<Str, seq<Str>>, deps: map<Str, seq<Str>>)
    ensures Tables(groups, nodes, children, members, deps)
  {
    children, members, deps := map[], map[], map[];
    var byKey: set<Str> := {};
    for i := 0 to |groups|
      invariant forall key :: key in byKey <==> exists j :: 0 <= j < i && groups[j].name == key
    {
      byKey := byKey + {groups[i].name};
    }
    assert forall key :: key in byKey <==> Known(groups, key);
    for i := 0 to |groups|
      invariant ChildrenTo(groups, children, i) && DepsTo(groups, deps, i)
    {
      var g := groups[i];
      var p := if g.parent in byKey && g.parent != g.name then g.parent else Empty;
      GroupListed(groups, children, deps, i);
      deps := deps[g.name := g.deps];
      children := children[p := Listed(children, p) + [g.name]];
    }
    for i := 0 to |nodes|
      invariant MembersTo(groups, nodes, members, i)
    {
      var home := if nodes[i].group in byKey then nodes[i].group else Empty;
      NodeListed(groups, nodes, members, i);
      members := members[home := Listed(members, home) + [nodes[i].name]];
    }
  }

  // The tree of the clusters reached from one of them.
  method Assemble(groups: seq<Group>, nodes: seq<Node>, children: map<Str, seq<Str>>, members: map<Str, seq<Str>>,
                  deps: map<Str, seq<Str>>, ghost height: map<Str, nat>, key: Str) returns (c: Cluster)
    requires Forest(groups, height) && key in height && Tables(groups, nodes, children, members, deps)
    ensures c == Tree(groups, nodes, height, key)
    decreases height[key]
  {
    var keys, below := Listed(children, key), [];
    for i := 0 to |keys|
      invariant |below| == i && forall j | 0 <= j < i :: below[j] == Child(groups, nodes, height, key, j)
    {
      ChildAt(groups, height, key, i);
      var ch := Assemble(groups, nodes, children, members, deps, height, keys[i]);
      assert ch == Child(groups, nodes, height, key, i);
      below := below + [ch];
    }
    assert below == Tree(groups, nodes, height, key).children;
    c := Cluster(key, Listed(deps, key), Listed(members, key), below);
  }

  // layoutDAG on the flat lists: the drawing has every node and group once, apart
  // from one another and each inside its own group's box.
  method LayoutFlat(groups: seq<Group>, nodes: seq<Node>, edges: seq<Edge>, nodeW: real, ghost height: map<Str, nat>)
      returns (root: Cluster, l: Laid, d: Drawing)
    requires nodeW >= 0.0 && Forest(groups, height) && NodesDiffer(nodes)
    ensures Nested(root, l, edges, nodeW, d, 0.0, TITLE_H)
    ensures NodesOf(root) == set i | 0 <= i < |nodes| :: nodes[i].name
    ensures KeysOf(root) == set i | 0 <= i < |groups| :: groups[i].name
    ensures Flows(root, edges, nodeW, d)
    ensures AllAcyclic(root, edges) ==>
      forall e | e in edges && e.from in NodesOf(root) && e.to in NodesOf(root) && e.from != e.to :: GoesRight(d, nodeW, e)
  {
    var children, members, deps := BuildClusters(groups, nodes);
    root := Assemble(groups, nodes, children, members, deps, height, Empty);
    TreeIsDistinct(groups, nodes, height, Empty);
    TreeIsWhole(groups, nodes, height);
    l, d := LayoutDAG(root, edges, nodeW);
    forall e | AllAcyclic(root, edges) && e in edges && e.from in NodesOf(root) && e.to in NodesOf(root) && e.from != e.to
      ensures GoesRight(d, nodeW, e)
    {
      EdgesGoRight(root, edges, nodeW, d, e);
    }
  }
}
