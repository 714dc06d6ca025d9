// The orthogonal edge router: a grid through the obstacles' edges, a cheapest path
// over (cell, direction of arrival) states, and the removal of collinear points.

module Router {
  import opened Collections
  import opened Geometry
  import opened Routes
  import opened Schema
  import opened ShortestPaths

  // A grid vertex and the direction it was entered in; NoDir is the start, before any move.
  datatype St = St(i: int, j: int, dir: Dir)

  datatype Grid = Grid(xs: seq<real>, ys: seq<real>, obstacles: seq<Rect>)

  function Dx(d: Dir): int {
    match d
    case Right => 1
    case Left => -1
    case _ => 0
  }

  function Dy(d: Dir): int {
    match d
    case Down => 1
    case Up => -1
    case _ => 0
  }

  // Whether a horizontal segment at height y crosses an obstacle.
  predicate CrossesH(r: Rect, xa: real, xb: real, y: real) {
    r.y + EPS < y < r.y + r.h - EPS && xb > r.x + EPS && xa < r.x + r.w - EPS
  }

  predicate CrossesV(r: Rect, ya: real, yb: real, x: real) {
    r.x + EPS < x < r.x + r.w - EPS && yb > r.y + EPS && ya < r.y + r.h - EPS
  }

  predicate ClearH(g: Grid, x1: real, x2: real, y: real) {
    forall r | r in g.obstacles :: !CrossesH(r, Lower(x1, x2), Upper(x1, x2), y)
  }

  predicate ClearV(g: Grid, y1: real, y2: real, x: real) {
    forall r | r in g.obstacles :: !CrossesV(r, Lower(y1, y2), Upper(y1, y2), x)
  }

  predicate Valid(g: Grid, s: St) {
    0 <= s.i < |g.xs| && 0 <= s.j < |g.ys|
  }

  function At(g: Grid, s: St): Point
    requires Valid(g, s)
  {
    Point(g.xs[s.i], g.ys[s.j])
  }

  function Target(s: St, d: Dir): St {
    St(s.i + Dx(d), s.j + Dy(d), d)
  }

  predicate Turns(u: St, v: St) {
    !u.dir.NoDir? && u.dir != v.dir
  }

  // A move to a neighbouring vertex that crosses no obstacle; the first goes right.
  predicate Moves(g: Grid, u: St, v: St) {
    && Valid(g, u) && Valid(g, v) && !v.dir.NoDir? && v == Target(u, v.dir)
    && (u.dir.NoDir? ==> v.dir.Right?)
    && if v.dir.Right? || v.dir.Left? then ClearH(g, g.xs[u.i], g.xs[v.i], g.ys[u.j])
       else ClearV(g, g.ys[u.j], g.ys[v.j], g.xs[u.i])
  }

  function Segment(g: Grid, u: St, v: St): real
    requires Valid(g, u) && Valid(g, v)
  {
    if v.dir.Right? || v.dir.Left? then Abs(g.xs[v.i] - g.xs[u.i]) else Abs(g.ys[v.j] - g.ys[u.j])
  }

  function Weight(g: Grid, u: St, v: St): Option<real> {
    if Moves(g, u, v) then Some(Segment(g, u, v) + if Turns(u, v) then BEND_PENALTY else 0.0) else None
  }

  function EdgesOf(g: Grid): Edges<St> {
    (u: St, v: St) => Weight(g, u, v)
  }

  lemma WeightsNonNegative(g: Grid)
    ensures NonNegative(EdgesOf(g))
  {
  }

  // ---- simplification ---------------------------------------------------------------------------

  predicate Collinear(a: Point, b: Point, c: Point) {
    (a.x == b.x && b.x == c.x) || (a.y == b.y && b.y == c.y)
  }

  // The points kept once the first i were looked at.
  function Kept(pts: seq<Point>, i: nat): (out: seq<Point>)
    requires 1 <= i < |pts|
    ensures out != [] && out[0] == pts[0]
  {
    if i == 1 then [pts[0]]
    else
      var out := Kept(pts, i - 1);
      if Collinear(out[|out| - 1], pts[i - 1], pts[i]) then out else out + [pts[i - 1]]
  }

  function Simplified(pts: seq<Point>): seq<Point> {
    if |pts| < 3 then pts else Kept(pts, |pts| - 1) + [pts[|pts| - 1]]
  }

  method SimplifyRoute(pts: seq<Point>) returns (out: seq<Point>)
    ensures out == Simplified(pts)
  {
    if |pts| < 3 {
      return pts;
    }
    out := [pts[0]];
    for i := 1 to |pts| - 1
      invariant out == Kept(pts, i)
    {
      var a, b, c := out[|out| - 1], pts[i], pts[i + 1];
      if Collinear(a, b, c) {
        continue;
      }
      out := out + [b];
    }
    out := out + [pts[|pts| - 1]];
  }

  // ---- clearance ------------------------------------------------------------------------------------

  // Dropping a collinear point joins two free segments into one.
  lemma JoinFree(a: Point, b: Point, c: Point, obstacles: seq<Rect>)
    requires FreeSegment(a, b, obstacles) && FreeSegment(b, c, obstacles) && Collinear(a, b, c)
    ensures FreeSegment(a, c, obstacles)
  {
    forall q | On(q, a, c) ensures Free(q, obstacles) {
      assert On(q, a, b) || On(q, b, c);
    }
  }

  lemma {:induction false} KeptFree(pts: seq<Point>, i: nat, obstacles: seq<Rect>)
    requires 1 <= i < |pts| && FreeRoute(pts, obstacles)
    ensures var out := Kept(pts, i); FreeRoute(out, obstacles) && FreeSegment(out[|out| - 1], pts[i], obstacles)
  {
    assert FreeSegment(pts[i - 1], pts[i], obstacles);
    if i > 1 {
      KeptFree(pts, i - 1, obstacles);
      var out := Kept(pts, i - 1);
      if Collinear(out[|out| - 1], pts[i - 1], pts[i]) {
        JoinFree(out[|out| - 1], pts[i - 1], pts[i], obstacles);
      }
    }
  }

  lemma SimplifiedFree(pts: seq<Point>, obstacles: seq<Rect>)
    requires FreeRoute(pts, obstacles)
    ensures FreeRoute(Simplified(pts), obstacles)
  {
    if |pts| >= 3 {
      var out, last := Kept(pts, |pts| - 1), pts[|pts| - 1];
      KeptFree(pts, |pts| - 1, obstacles);
      forall i, j | 0 <= i < j < |out + [last]| && j == i + 1
        ensures FreeSegment((out + [last])[i], (out + [last])[j], obstacles)
      {
        if j < |out| {
          assert FreeSegment(out[i], out[j], obstacles);
        }
      }
    }
  }

  // ---- what simplification saves ----------------------------------------------------------------

  // Three points of a line head one way, or the last step turns back, maybe to the first.
  lemma CollinearHeadings(a: Point, b: Point, c: Point)
    requires Collinear(a, b, c) && b != c
    ensures Manhattan(a, c) <= Manhattan(a, b) + Manhattan(b, c)
    ensures Heading(a, c) == Heading(a, b) || Heading(a, c) == Heading(b, c) || (Heading(a, c).NoDir? && Heading(a, b) != Heading(b, c))
  {
  }

  // A kept point and the points dropped after it: the saved bends cover any the
  // shortcut may add later.
  ghost predicate Saves(out: seq<Point>, b: Point, p: Point, cost: real)
    requires out != []
  {
    RouteCost(out + [b]) + (if Heading(out[|out| - 1], b) != Heading(p, b) then BEND_PENALTY else 0.0) <= cost
  }

  lemma SavesOnDrop(out: seq<Point>, p: Point, b: Point, c: Point, cost: real)
    requires out != [] && Saves(out, b, p, cost) && p != b && b != c && Collinear(out[|out| - 1], b, c)
    ensures Saves(out, c, b, cost + Manhattan(b, c) + if Bend(Heading(p, b), Heading(b, c)) then BEND_PENALTY else 0.0)
  {
    CostPush(out, b);
    CostPush(out, c);
    CollinearHeadings(out[|out| - 1], b, c);
  }

  lemma SavesOnKeep(out: seq<Point>, p: Point, b: Point, c: Point, cost: real)
    requires out != [] && Saves(out, b, p, cost) && p != b && b != c
    ensures Saves(out + [b], c, b, cost + Manhattan(b, c) + if Bend(Heading(p, b), Heading(b, c)) then BEND_PENALTY else 0.0)
  {
    CostPush(out + [b], c);
    assert (out + [b])[|out|] == b && (out + [b])[|out| - 1] == out[|out| - 1];
  }

  ghost predicate Moving(pts: seq<Point>) {
    forall i, j | 0 <= i < j < |pts| && j == i + 1 :: pts[i] != pts[j]
  }

  lemma {:induction false} KeptSaves(pts: seq<Point>, i: nat)
    requires 1 <= i < |pts| && Moving(pts)
    ensures Saves(Kept(pts, i), pts[i], pts[i - 1], RouteCost(pts[..i + 1]))
  {
    if i == 1 {
      assert [pts[0]] + [pts[1]] == pts[..2];
    } else {
      KeptSaves(pts, i - 1);
      var out := Kept(pts, i - 1);
      assert pts[..i] + [pts[i]] == pts[..i + 1];
      CostPush(pts[..i], pts[i]);
      if Collinear(out[|out| - 1], pts[i - 1], pts[i]) {
        SavesOnDrop(out, pts[i - 2], pts[i - 1], pts[i], RouteCost(pts[..i]));
      } else {
        SavesOnKeep(out, pts[i - 2], pts[i - 1], pts[i], RouteCost(pts[..i]));
      }
    }
  }

  // The simplified route starts and ends where the route did and costs no more.
  lemma SimplifiedIsCheaper(pts: seq<Point>)
    requires |pts| >= 2 && Moving(pts)
    ensures var out := Simplified(pts);
      |out| >= 2 && out[0] == pts[0] && out[|out| - 1] == pts[|pts| - 1] && RouteCost(out) <= RouteCost(pts)
  {
    if |pts| >= 3 {
      KeptSaves(pts, |pts| - 1);
      assert pts[..|pts|] == pts;
    }
  }

  // The corners among the first i points: where the direction changes.
  function Corners(pts: seq<Point>, i: nat): seq<Point>
    requires 1 <= i < |pts|
  {
    if i == 1 then [pts[0]]
    else Corners(pts, i - 1) + if Heading(pts[i - 2], pts[i - 1]) != Heading(pts[i - 1], pts[i]) then [pts[i - 1]] else []
  }

  predicate TurnsBack(d: Dir, e: Dir) {
    match d
    case Right => e.Left?
    case Left => e.Right?
    case Down => e.Up?
    case Up => e.Down?
    case NoDir => false
  }

  // Steps along the axes, none of which turns back.
  ghost predicate GoesOn(pts: seq<Point>) {
    && (forall i, j | 0 <= i < j < |pts| && j == i + 1 :: pts[i] != pts[j] && (pts[i].x == pts[j].x || pts[i].y == pts[j].y))
    && forall i, j, k | 0 <= i < j < k < |pts| && j == i + 1 && k == j + 1 :: !TurnsBack(Heading(pts[i], pts[j]), Heading(pts[j], pts[k]))
  }

  lemma {:induction false} KeptAreCorners(pts: seq<Point>, i: nat)
    requires 1 <= i < |pts| && GoesOn(pts)
    ensures Kept(pts, i) == Corners(pts, i)
    ensures var out := Kept(pts, i);
      var a := out[|out| - 1];
      Heading(a, pts[i]) == Heading(pts[i - 1], pts[i]) && (a.x == pts[i].x || a.y == pts[i].y)
  {
    assert pts[i - 1] != pts[i];
    if i > 1 {
      KeptAreCorners(pts, i - 1);
      assert pts[i - 2] != pts[i - 1] && !TurnsBack(Heading(pts[i - 2], pts[i - 1]), Heading(pts[i - 1], pts[i]));
    }
  }

  // Simplified, a route that never turns back is its ends and the points where its
  // direction changes.
  lemma SimplifiedAreCorners(pts: seq<Point>)
    requires |pts| >= 2 && GoesOn(pts)
    ensures Simplified(pts) == Corners(pts, |pts| - 1) + [pts[|pts| - 1]]
  {
    KeptAreCorners(pts, |pts| - 1);
  }

  // ---- walks of the grid are routes ---------------------------------------------------------------

  function PointsOf(g: Grid, p: seq<St>): (pts: seq<Point>)
    requires forall i | 0 <= i < |p| :: Valid(g, p[i])
    ensures |pts| == |p| && forall i | 0 <= i < |p| :: pts[i] == At(g, p[i])
  {
    seq(|p|, i requires 0 <= i < |p| => At(g, p[i]))
  }

  ghost predicate Path(g: Grid, p: seq<St>) {
    Walk(EdgesOf(g), p) && forall i | 0 <= i < |p| :: Valid(g, p[i])
  }

  predicate Increasing(s: seq<real>) {
    forall i, j | 0 <= i < j < |s| :: s[i] < s[j]
  }

  predicate Straight(g: Grid) {
    Increasing(g.xs) && Increasing(g.ys)
  }

  // A move is what it looks like: a clear step to the neighbouring line, in the
  // direction it is recorded with.
  lemma MoveIsStep(g: Grid, u: St, v: St)
    requires Straight(g) && Moves(g, u, v)
    ensures var a, b := At(g, u), At(g, v);
      a != b && Heading(a, b) == v.dir && Clear(a, b, g.obstacles) && Segment(g, u, v) == Manhattan(a, b)
  {
    var a, b := At(g, u), At(g, v);
    forall r | r in g.obstacles ensures !Enters(a, b, r) {
      if v.dir.Right? || v.dir.Left? {
        assert !CrossesH(r, Lower(a.x, b.x), Upper(a.x, b.x), a.y);
      } else {
        assert !CrossesV(r, Lower(a.y, b.y), Upper(a.y, b.y), a.x);
      }
    }
  }

  // And every such step is a move.
  lemma StepIsMove(g: Grid, u: St, d: Dir)
    requires Straight(g) && Valid(g, u) && !d.NoDir? && (u.dir.NoDir? ==> d.Right?)
    requires Valid(g, Target(u, d)) && Clear(At(g, u), At(g, Target(u, d)), g.obstacles)
    ensures Moves(g, u, Target(u, d))
  {
    var a, b := At(g, u), At(g, Target(u, d));
    forall r | r in g.obstacles
      ensures d.Right? || d.Left? ==> !CrossesH(r, Lower(a.x, b.x), Upper(a.x, b.x), a.y)
      ensures d.Down? || d.Up? ==> !CrossesV(r, Lower(a.y, b.y), Upper(a.y, b.y), a.x)
    {
      assert !Enters(a, b, r);
    }
  }

  lemma PathStep(g: Grid, p: seq<St>, i: nat)
    requires Path(g, p) && i + 1 < |p|
    ensures Moves(g, p[i], p[i + 1])
  {
    assert EdgesOf(g)(p[i], p[i + 1]).Some?;
  }

  lemma PrefixCost(q: seq<Point>, n: nat)
    requires 1 <= n < |q|
    ensures RouteCost(q[..n + 1]) == RouteCost(q[..n]) + Manhattan(q[n - 1], q[n])
      + if n >= 2 && Bend(Heading(q[n - 2], q[n - 1]), Heading(q[n - 1], q[n])) then BEND_PENALTY else 0.0
  {
    assert q[..n] + [q[n]] == q[..n + 1];
    CostPush(q[..n], q[n]);
  }

  lemma LastWeight(g: Grid, p: seq<St>, pts: seq<Point>, n: nat)
    requires Path(g, p) && Straight(g) && p[0].dir.NoDir? && pts == PointsOf(g, p) && 1 <= n < |p|
    ensures EdgesOf(g)(p[n - 1], p[n]) == Some(Manhattan(pts[n - 1], pts[n])
      + if n >= 2 && Bend(Heading(pts[n - 2], pts[n - 1]), Heading(pts[n - 1], pts[n])) then BEND_PENALTY else 0.0)
  {
    PathStep(g, p, n - 1);
    MoveIsStep(g, p[n - 1], p[n]);
    if n >= 2 {
      PathStep(g, p, n - 2);
      MoveIsStep(g, p[n - 2], p[n - 1]);
    }
  }

  // The cost of a walk from the start is the length of its points plus a penalty for
  // each of their bends.
  lemma {:induction false} CostIsLengthAndBends(g: Grid, p: seq<St>)
    requires Path(g, p) && Straight(g) && p[0].dir.NoDir?
    ensures Cost(EdgesOf(g), p) == RouteCost(PointsOf(g, p))
  {
    if |p| > 1 {
      var n, pts := |p| - 1, PointsOf(g, p);
      CostIsLengthAndBends(g, p[..n]);
      assert PointsOf(g, p[..n]) == pts[..n] && pts[..n + 1] == pts;
      LastWeight(g, p, pts, n);
      PrefixCost(pts, n);
    }
  }

  // The points of a walk, seen as a route.
  lemma PointsMove(g: Grid, p: seq<St>)
    requires Path(g, p) && Straight(g)
    ensures Moving(PointsOf(g, p)) && FreeRoute(PointsOf(g, p), g.obstacles)
    ensures var pts := PointsOf(g, p);
      forall i, j | 0 <= i < j < |pts| && j == i + 1 :: pts[i] != pts[j] && Clear(pts[i], pts[j], g.obstacles) && Heading(pts[i], pts[j]) == p[j].dir
  {
    var pts := PointsOf(g, p);
    forall i, j | 0 <= i < j < |p| && j == i + 1
      ensures pts[i] != pts[j] && Clear(pts[i], pts[j], g.obstacles) && Heading(pts[i], pts[j]) == p[j].dir
      ensures FreeSegment(pts[i], pts[j], g.obstacles)
    {
      PathStep(g, p, i);
      MoveIsStep(g, p[i], p[j]);
      ClearIsFree(pts[i], pts[j], g.obstacles);
    }
  }

  // The drawn route of a path enters no obstacle.
  lemma RouteIsFree(g: Grid, p: seq<St>)
    requires Path(g, p) && Straight(g)
    ensures FreeRoute(Simplified(PointsOf(g, p)), g.obstacles)
  {
    PointsMove(g, p);
    SimplifiedFree(PointsOf(g, p), g.obstacles);
  }

  // ---- routes are walks of the grid ---------------------------------------------------------------

  // The state k moves on.
  function Ahead(u: St, d: Dir, k: nat): St {
    match d
    case Right => St(u.i + k, u.j, d)
    case Left => St(u.i - k, u.j, d)
    case Down => St(u.i, u.j + k, d)
    case Up => St(u.i, u.j - k, d)
    case NoDir => St(u.i, u.j, d)
  }

  // The piece of a straight way up to its last line but one is clear if the way is.
  lemma ShorterIsClear(g: Grid, u: St, d: Dir, k: nat)
    requires Straight(g) && Valid(g, u) && !d.NoDir? && k >= 1 && Valid(g, Ahead(u, d, k + 1))
    requires Clear(At(g, u), At(g, Ahead(u, d, k + 1)), g.obstacles)
    ensures Valid(g, Ahead(u, d, k)) && Target(Ahead(u, d, k), d) == Ahead(u, d, k + 1)
    ensures var a, b, c := At(g, u), At(g, Ahead(u, d, k)), At(g, Ahead(u, d, k + 1));
      Clear(a, b, g.obstacles) && Clear(b, c, g.obstacles) && Manhattan(a, c) == Manhattan(a, b) + Manhattan(b, c)
  {
    var a, b, c := At(g, u), At(g, Ahead(u, d, k)), At(g, Ahead(u, d, k + 1));
    forall r | r in g.obstacles ensures !Enters(a, b, r) && !Enters(b, c, r) {
      assert !Enters(a, c, r);
    }
  }

  // A clear way of k lines, move by move.
  lemma {:induction false} Stretch(g: Grid, start: St, u: St, w: seq<St>, d: Dir, k: nat) returns (w1: seq<St>)
    requires Straight(g) && Valid(g, u) && !d.NoDir? && k >= 1 && Valid(g, Ahead(u, d, k)) && (u.dir.NoDir? ==> d.Right?)
    requires Clear(At(g, u), At(g, Ahead(u, d, k)), g.obstacles)
    requires WalkTo(EdgesOf(g), start, u, w)
    ensures WalkTo(EdgesOf(g), start, Ahead(u, d, k), w1)
    ensures Cost(EdgesOf(g), w1) == Cost(EdgesOf(g), w) + Manhattan(At(g, u), At(g, Ahead(u, d, k)))
      + if Bend(u.dir, d) then BEND_PENALTY else 0.0
    decreases k
  {
    if k == 1 {
      w1 := OneMove(g, start, u, w, d);
    } else {
      ShorterIsClear(g, u, d, k - 1);
      var w0 := Stretch(g, start, u, w, d, k - 1);
      w1 := OneMove(g, start, Ahead(u, d, k - 1), w0, d);
    }
  }

  lemma OneMove(g: Grid, start: St, u: St, w: seq<St>, d: Dir) returns (w1: seq<St>)
    requires Straight(g) && Valid(g, u) && !d.NoDir? && (u.dir.NoDir? ==> d.Right?)
    requires Valid(g, Target(u, d)) && Clear(At(g, u), At(g, Target(u, d)), g.obstacles)
    requires WalkTo(EdgesOf(g), start, u, w)
    ensures WalkTo(EdgesOf(g), start, Target(u, d), w1)
    ensures Cost(EdgesOf(g), w1) == Cost(EdgesOf(g), w) + Manhattan(At(g, u), At(g, Target(u, d))) + if Bend(u.dir, d) then BEND_PENALTY else 0.0
  {
    var v := Target(u, d);
    StepIsMove(g, u, d);
    MoveIsStep(g, u, v);
    Extend(EdgesOf(g), start, u, w, v);
    w1 := w + [v];
  }

  // Between two points of the grid on one line.
  lemma LinesBetween(g: Grid, u: St, b: Point) returns (k: nat)
    requires Straight(g) && Valid(g, u) && b.x in g.xs && b.y in g.ys
    requires At(g, u) != b && (At(g, u).x == b.x || At(g, u).y == b.y)
    ensures var d := Heading(At(g, u), b); !d.NoDir? && k >= 1 && Valid(g, Ahead(u, d, k)) && At(g, Ahead(u, d, k)) == b
  {
    var i :| 0 <= i < |g.xs| && g.xs[i] == b.x;
    var j :| 0 <= j < |g.ys| && g.ys[j] == b.y;
    k := if i > u.i then i - u.i else if i < u.i then u.i - i else if j > u.j then j - u.j else u.j - j;
  }

  lemma ToCorner(g: Grid, start: St, u: St, w: seq<St>, b: Point) returns (w1: seq<St>, v: St)
    requires Straight(g) && Valid(g, u) && b.x in g.xs && b.y in g.ys && At(g, u) != b && Clear(At(g, u), b, g.obstacles)
    requires WalkTo(EdgesOf(g), start, u, w) && (u.dir.NoDir? ==> Heading(At(g, u), b) == Right)
    ensures WalkTo(EdgesOf(g), start, v, w1) && Valid(g, v) && At(g, v) == b && v.dir == Heading(At(g, u), b) && !v.dir.NoDir?
    ensures Cost(EdgesOf(g), w1) == Cost(EdgesOf(g), w) + Manhattan(At(g, u), b) + if Bend(u.dir, v.dir) then BEND_PENALTY else 0.0
  {
    var d := Heading(At(g, u), b);
    var k := LinesBetween(g, u, b);
    v := Ahead(u, d, k);
    w1 := Stretch(g, start, u, w, d, k);
  }

  // A polyline with its corners on the grid, as far as its n-th point.
  lemma {:induction false} PolylineWalks(g: Grid, start: St, q: seq<Point>, n: nat) returns (w: seq<St>, u: St)
    requires Straight(g) && Valid(g, start) && start.dir.NoDir? && n < |q|
    requires q[0] == At(g, start) && (|q| > 1 ==> Heading(q[0], q[1]) == Right)
    requires forall i | 0 <= i < |q| :: q[i].x in g.xs && q[i].y in g.ys
    requires forall i, j | 0 <= i < j < |q| && j == i + 1 :: q[i] != q[j] && Clear(q[i], q[j], g.obstacles)
    ensures WalkTo(EdgesOf(g), start, u, w) && Valid(g, u) && At(g, u) == q[n] && Cost(EdgesOf(g), w) == RouteCost(q[..n + 1])
    ensures if n == 0 then u == start else u.dir == Heading(q[n - 1], q[n]) && !u.dir.NoDir?
    decreases n
  {
    if n == 0 {
      w, u := [start], start;
    } else {
      var w0, u0 := PolylineWalks(g, start, q, n - 1);
      w, u := ToCorner(g, start, u0, w0, q[n]);
      PrefixCost(q, n);
    }
  }

  // ---- the grid -------------------------------------------------------------------------------------

  predicate Ascending(s: seq<real>) {
    forall i, j | 0 <= i < j < |s| :: s[i] <= s[j]
  }

  // sort.Float64s.
  method SortFloats(vals: seq<real>) returns (out: seq<real>)
    ensures Ascending(out) && (forall x :: x in out <==> x in vals)
  {
    out := [];
    for i := 0 to |vals|
      invariant Ascending(out)
      invariant forall x :: x in out <==> x in vals[..i]
    {
      var k := 0;
      while k < |out| && out[k] < vals[i]
        invariant 0 <= k <= |out| && forall m | 0 <= m < k :: out[m] < vals[i]
      {
        k := k + 1;
      }
      assert vals[..i + 1] == vals[..i] + [vals[i]];
      assert out == out[..k] + out[k..];
      out := out[..k] + [vals[i]] + out[k..];
    }
    assert vals[..|vals|] == vals;
  }

  // Sorts and removes duplicates.
  method UniqSortedFloat(vals: seq<real>) returns (out: seq<real>)
    ensures Increasing(out) && (forall x :: x in out <==> x in vals)
  {
    var sorted := SortFloats(vals);
    out := [];
    for i := 0 to |sorted|
      invariant Increasing(out)
      invariant forall x :: x in out <==> x in sorted[..i]
      invariant if i == 0 then out == [] else out != [] && out[|out| - 1] == sorted[i - 1]
    {
      assert sorted[..i + 1] == sorted[..i] + [sorted[i]];
      if i == 0 || sorted[i] != sorted[i - 1] {
        LastIsGreatest(sorted, i, out);
        out := out + [sorted[i]];
      }
    }
    assert sorted[..|sorted|] == sorted;
  }

  lemma LastIsGreatest(sorted: seq<real>, i: nat, out: seq<real>)
    requires i < |sorted| && Ascending(sorted) && Increasing(out)
    requires if i == 0 then out == [] else out != [] && out[|out| - 1] == sorted[i - 1] && sorted[i - 1] != sorted[i]
    ensures forall k | 0 <= k < |out| :: out[k] < sorted[i]
  {
  }

  // Grid lines through the ports and the obstacles' edges, and a border around.
  method GridLines(a: real, b: real, edges: seq<real>) returns (lines: seq<real>)
    ensures Increasing(lines)
    ensures forall v :: v in lines <==> Line(v, {a, b} + set e | e in edges)
  {
    var all := [a, b] + edges;
    ghost var marks := {a, b} + set e | e in edges;
    var inner := UniqSortedFloat(all);
    assert forall v :: v in all <==> v in marks;
    assert a in inner;
    var first, last := inner[0], inner[|inner| - 1];
    lines := [first - MARGIN] + inner + [last + MARGIN];
    assert first in marks && last in marks && forall m | m in marks :: first <= m <= last by {
      OutermostMarks(inner);
    }
    forall v ensures v in lines <==> Line(v, marks) {
      assert v in lines <==> v == first - MARGIN || v in inner || v == last + MARGIN;
    }
  }

  lemma OutermostMarks(inner: seq<real>)
    requires inner != [] && Increasing(inner)
    ensures inner[0] in inner && inner[|inner| - 1] in inner && forall m | m in inner :: inner[0] <= m <= inner[|inner| - 1]
  {
  }

  method IndexOf(lines: seq<real>, v: real) returns (k: int)
    requires v in lines
    ensures 0 <= k < |lines| && lines[k] == v
  {
    k := 0;
    while lines[k] != v
      invariant 0 <= k < |lines| && v !in lines[..k]
      decreases |lines| - k
    {
      assert lines == lines[..k + 1] + lines[k + 1..] && lines[..k + 1] == lines[..k] + [lines[k]];
      k := k + 1;
    }
  }

  // ---- the tables -------------------------------------------------------------------------------------

  function DirNo(d: Dir): int {
    match d
    case Right => 0
    case Left => 1
    case Down => 2
    case Up => 3
    case NoDir => 4
  }

  function Width(g: Grid): int {
    |g.xs|
  }

  function Size(g: Grid): int {
    |g.xs| * |g.ys| * 5
  }

  function CellNo(g: Grid, s: St): int {
    s.j * Width(g) + s.i
  }

  function Index(g: Grid, s: St): int {
    CellNo(g, s) * 5 + DirNo(s.dir)
  }

  lemma CellInRange(w: int, h: int, i: int, j: int)
    requires 0 <= i < w && 0 <= j < h
    ensures 0 <= j * w + i < w * h
  {
    assert j * w <= (h - 1) * w;
  }

  lemma IndexInRange(g: Grid, s: St)
    requires Valid(g, s)
    ensures 0 <= Index(g, s) < Size(g)
  {
    CellInRange(|g.xs|, |g.ys|, s.i, s.j);
  }

  lemma CellsDiffer(w: int, i1: int, j1: int, i2: int, j2: int)
    requires 0 <= i1 < w && 0 <= i2 < w && j1 < j2
    ensures j1 * w + i1 < j2 * w + i2
  {
    assert (j1 + 1) * w <= j2 * w;
  }

  lemma IndexInjective(g: Grid, s: St, t: St)
    requires Valid(g, s) && Valid(g, t) && Index(g, s) == Index(g, t)
    ensures s == t
  {
    if s.j < t.j {
      CellsDiffer(|g.xs|, s.i, s.j, t.i, t.j);
    } else if t.j < s.j {
      CellsDiffer(|g.xs|, t.i, t.j, s.i, s.j);
    }
  }

  lemma DecodeCell(g: Grid, s: St)
    requires Valid(g, s)
    ensures Index(g, s) / 5 == CellNo(g, s)
    ensures CellNo(g, s) % Width(g) == s.i && CellNo(g, s) / Width(g) == s.j
  {
    DivMod(Width(g), s.j, s.i);
  }

  lemma DivMod(w: int, q: int, r: int)
    requires 0 <= r < w && q >= 0
    ensures (q * w + r) / w == q && (q * w + r) % w == r
  {
    var n := q * w + r;
    assert n == (n / w) * w + n % w;
    if n / w < q {
      CellsDiffer(w, n % w, n / w, r, q);
    } else if q < n / w {
      CellsDiffer(w, r, q, n % w, n / w);
    }
  }

  // The distance table of a search: no entry is an infinite one.
  ghost predicate DistTable(g: Grid, dist: seq<Option<real>>, s: Search<St>) {
    && |dist| == Size(g)
    && (forall st | st in s.dist :: Valid(g, st))
    && forall st | Valid(g, st) :: 0 <= Index(g, st) < |dist| && dist[Index(g, st)] == if st in s.dist then Some(s.dist[st]) else None
  }

  // The predecessor table: every node but the start names the one before it.
  ghost predicate PrevTable(g: Grid, prev: seq<int>, s: Search<St>, start: St) {
    && |prev| == Size(g)
    && forall st | st in s.dist && st in s.walk :: 0 <= Index(g, st) < |prev| &&
         prev[Index(g, st)] == (if st == start || |s.walk[st]| < 2 then -1 else Index(g, s.walk[st][|s.walk[st]| - 2]))
  }

  lemma TablesAfter(g: Grid, dist: seq<Option<real>>, prev: seq<int>, s: Search<St>, start: St, c: St, v: St, cost: real)
    requires DistTable(g, dist, s) && PrevTable(g, prev, s, start)
    requires c in s.dist && c in s.walk && s.walk[c] != [] && s.walk[c][|s.walk[c]| - 1] == c && Valid(g, v) && v != start
    ensures 0 <= Index(g, v) < |dist| && 0 <= Index(g, v) < |prev|
    ensures DistTable(g, dist[Index(g, v) := Some(cost)], Improved(s, c, v, cost))
    ensures PrevTable(g, prev[Index(g, v) := Index(g, c)], Improved(s, c, v, cost), start)
  {
    IndexInRange(g, v);
    forall st | Valid(g, st) && Index(g, st) == Index(g, v) ensures st == v {
      IndexInjective(g, st, v);
    }
  }

  lemma InitialTables(g: Grid, start: St)
    requires Valid(g, start)
    ensures 0 <= Index(g, start) < Size(g)
    ensures var s := Search(map[start := 0.0], map[start := [start]], {});
      && DistTable(g, seq(Size(g), _ => None)[Index(g, start) := Some(0.0)], s)
      && PrevTable(g, seq(Size(g), _ => -1), s, start)
  {
    IndexInRange(g, start);
    forall st | Valid(g, st) ensures 0 <= Index(g, st) < Size(g) && (Index(g, st) == Index(g, start) ==> st == start) {
      IndexInRange(g, st);
      if Index(g, st) == Index(g, start) {
        IndexInjective(g, st, start);
      }
    }
  }

  // ---- the heap -----------------------------------------------------------------------------------------

  predicate Less(g: Grid, a: Item<St>, b: Item<St>) {
    a.dist < b.dist || (a.dist == b.dist && Index(g, a.node) < Index(g, b.node))
  }

  // container/heap's Pop: an item that no other is less than.
  method Pop(g: Grid, heap: seq<Item<St>>) returns (e: Item<St>, rest: seq<Item<St>>)
    requires heap != [] && Distinct(heap)
    ensures Popped(heap, e, rest) && |rest| == |heap| - 1
  {
    var k := 0;
    for i := 1 to |heap|
      invariant 0 <= k < |heap| && forall m | 0 <= m < i :: heap[k].dist <= heap[m].dist
    {
      if Less(g, heap[i], heap[k]) {
        k := i;
      }
    }
    e, rest := heap[k], heap[..k] + heap[k + 1..];
    assert heap == heap[..k] + [heap[k]] + heap[k + 1..];
  }

  // ---- the search ---------------------------------------------------------------------------------------

  function DirOf(d: int): Dir {
    if d == 0 then Right else if d == 1 then Left else if d == 2 then Down else Up
  }

  ghost predicate Busy(g: Grid, start: St, s: Search<St>, heap: seq<Item<St>>, c: St, dist: seq<Option<real>>, prev: seq<int>) {
    Relaxing(EdgesOf(g), start, s, heap, c) && DistTable(g, dist, s) && PrevTable(g, prev, s, start)
  }

  lemma BetterMove(g: Grid, start: St, s: Search<St>, heap: seq<Item<St>>, c: St, v: St, cost: real)
    requires Relaxing(EdgesOf(g), start, s, heap, c) && Weight(g, c, v).Some? && cost == s.dist[c] + Weight(g, c, v).value
    requires v !in s.dist || cost < s.dist[v]
    ensures Better(EdgesOf(g), start, s, heap, c, v) && EdgesOf(g)(c, v) == Weight(g, c, v)
  {
    WeightsNonNegative(g);
    assert EdgesOf(g)(c, v) == Weight(g, c, v);
  }

  lemma SearchAfter(g: Grid, start: St, s: Search<St>, heap: seq<Item<St>>, c: St, v: St, cost: real)
    requires Relaxing(EdgesOf(g), start, s, heap, c) && Weight(g, c, v).Some? && cost == s.dist[c] + Weight(g, c, v).value
    requires v !in s.dist || cost < s.dist[v]
    ensures v != c && v != start && c in s.walk && s.walk[c] != [] && s.walk[c][|s.walk[c]| - 1] == c
    ensures Relaxing(EdgesOf(g), start, Improved(s, c, v, cost), heap + [Item(v, cost)], c)
  {
    assert Reached(EdgesOf(g), start, s, c);
    BetterMove(g, start, s, heap, c, v, cost);
    BetterIsNew(EdgesOf(g), start, s, heap, c, v);
    Improve(EdgesOf(g), start, s, heap, c, v);
  }

  // Distances only shrink.
  ghost predicate Closer(s: Search<St>, s1: Search<St>) {
    s1.settled == s.settled && forall n | n in s.dist :: n in s1.dist && s1.dist[n] <= s.dist[n]
  }

  ghost predicate MoveDone(g: Grid, s: Search<St>, s1: Search<St>, c: St, v: St) {
    Closer(s, s1) && c in s.dist && s1.dist[c] == s.dist[c] && RelaxedMove(g, s1, c, v)
  }

  lemma BusyAfter(g: Grid, start: St, s: Search<St>, heap: seq<Item<St>>, c: St, v: St, dist: seq<Option<real>>, prev: seq<int>, cost: real)
    requires Busy(g, start, s, heap, c, dist, prev) && Weight(g, c, v).Some? && cost == s.dist[c] + Weight(g, c, v).value
    requires v !in s.dist || cost < s.dist[v]
    ensures v != c && c in s.walk && 0 <= Index(g, v) < |dist| && 0 <= Index(g, v) < |prev|
    ensures Busy(g, start, Improved(s, c, v, cost), heap + [Item(v, cost)], c,
                 dist[Index(g, v) := Some(cost)], prev[Index(g, v) := Index(g, c)])
    ensures MoveDone(g, s, Improved(s, c, v, cost), c, v)
  {
    SearchAfter(g, start, s, heap, c, v, cost);
    TablesAfter(g, dist, prev, s, start, c, v, cost);
  }

  // The cost of moving on from c, if the grid and the obstacles allow it.
  method MoveCost(g: Grid, c: St, d: Dir) returns (w: Option<real>)
    requires !d.NoDir? && Valid(g, c)
    ensures w == Weight(g, c, Target(c, d))
  {
    if c.dir.NoDir? && !d.Right? {
      return None;
    }
    var v := Target(c, d);
    if v.i < 0 || v.i >= |g.xs| || v.j < 0 || v.j >= |g.ys| {
      return None;
    }
    var seg;
    if d.Right? || d.Left? {
      if !ClearH(g, g.xs[c.i], g.xs[v.i], g.ys[c.j]) {
        return None;
      }
      seg := Abs(g.xs[v.i] - g.xs[c.i]);
    } else {
      if !ClearV(g, g.ys[c.j], g.ys[v.j], g.xs[c.i]) {
        return None;
      }
      seg := Abs(g.ys[v.j] - g.ys[c.j]);
    }
    if !c.dir.NoDir? && c.dir != d {
      seg := seg + BEND_PENALTY;
    }
    return Some(seg);
  }

  lemma Entries(g: Grid, start: St, s: Search<St>, heap: seq<Item<St>>, c: St, dist: seq<Option<real>>, prev: seq<int>, v: St)
    requires Busy(g, start, s, heap, c, dist, prev) && Valid(g, v)
    ensures Valid(g, c) && 0 <= Index(g, c) < |dist| && dist[Index(g, c)] == Some(s.dist[c])
    ensures 0 <= Index(g, v) < |dist| && |dist| == |prev|
    ensures dist[Index(g, v)] == if v in s.dist then Some(s.dist[v]) else None
  {
  }

  method RecordWalk(dist: array<Option<real>>, prev: array<int>, k: int, cost: real, from: int)
    requires 0 <= k < dist.Length && k < prev.Length
    modifies dist, prev
    ensures dist[..] == old(dist[..])[k := Some(cost)] && prev[..] == old(prev[..])[k := from]
  {
    dist[k] := Some(cost);
    prev[k] := from;
  }

  // Relaxes one move from c.
  method RelaxMove(g: Grid, start: St, c: St, d: Dir, dist: array<Option<real>>, prev: array<int>, heap: seq<Item<St>>, ghost s: Search<St>)
      returns (heap1: seq<Item<St>>, ghost s1: Search<St>)
    requires !d.NoDir? && Busy(g, start, s, heap, c, dist[..], prev[..])
    modifies dist, prev
    ensures Busy(g, start, s1, heap1, c, dist[..], prev[..])
    ensures MoveDone(g, s, s1, c, Target(c, d))
  {
    heap1, s1 := heap, s;
    var v := Target(c, d);
    var w := MoveCost(g, c, d);
    if w.None? {
      return;
    }
    Entries(g, start, s, heap, c, dist[..], prev[..], v);
    var cost := dist[Index(g, c)].value + w.value;
    var known := dist[Index(g, v)];
    if known.None? || cost < known.value {
      BusyAfter(g, start, s, heap, c, v, dist[..], prev[..], cost);
      RecordWalk(dist, prev, Index(g, v), cost, Index(g, c));
      heap1, s1 := heap + [Item(v, cost)], Improved(s, c, v, cost);
    }
  }

  // The first d moves from c are relaxed, and nothing was settled meanwhile.
  ghost predicate SoFar(g: Grid, s: Search<St>, s1: Search<St>, c: St, d: int) {
    && s1.settled == s.settled && c in s1.dist
    && forall k | 0 <= k < d :: RelaxedMove(g, s1, c, Target(c, DirOf(k)))
  }

  lemma OneMore(g: Grid, s: Search<St>, s0: Search<St>, s1: Search<St>, c: St, d: int)
    requires SoFar(g, s, s0, c, d) && MoveDone(g, s0, s1, c, Target(c, DirOf(d)))
    ensures SoFar(g, s, s1, c, d + 1)
  {
    forall k | 0 <= k < d + 1 ensures RelaxedMove(g, s1, c, Target(c, DirOf(k))) {
      if k < d {
        assert RelaxedMove(g, s0, c, Target(c, DirOf(k)));
      }
    }
  }

  // Relaxes the four moves from c.
  method RelaxMoves(g: Grid, start: St, c: St, dist: array<Option<real>>, prev: array<int>, heap: seq<Item<St>>, ghost s: Search<St>)
      returns (heap1: seq<Item<St>>, ghost s1: Search<St>)
    requires Busy(g, start, s, heap, c, dist[..], prev[..])
    modifies dist, prev
    ensures Busy(g, start, s1, heap1, c, dist[..], prev[..])
    ensures SoFar(g, s, s1, c, 4)
  {
    heap1, s1 := heap, s;
    for d := 0 to 4
      invariant Busy(g, start, s1, heap1, c, dist[..], prev[..])
      invariant SoFar(g, s, s1, c, d)
    {
      ghost var s0 := s1;
      heap1, s1 := RelaxMove(g, start, c, DirOf(d), dist, prev, heap1, s1);
      OneMore(g, s, s0, s1, c, d);
    }
  }

  ghost predicate RelaxedMove(g: Grid, s: Search<St>, c: St, v: St)
    requires c in s.dist
  {
    Weight(g, c, v).Some? ==> v in s.dist && s.dist[v] <= s.dist[c] + Weight(g, c, v).value
  }

  lemma AllMoves(g: Grid, was: Search<St>, s: Search<St>, c: St)
    requires SoFar(g, was, s, c, 4)
    ensures Relaxed(EdgesOf(g), s, c)
  {
    forall v | EdgesOf(g)(c, v).Some? ensures v in s.dist && s.dist[v] <= s.dist[c] + EdgesOf(g)(c, v).value {
      assert v == Target(c, DirOf(DirNo(v.dir)));
      assert RelaxedMove(g, s, c, Target(c, DirOf(DirNo(v.dir))));
    }
  }

  // A walk of the grid that leaves the source port and enters the target port.
  ghost predicate Connects(g: Grid, start: St, goal: St, p: seq<St>) {
    Walk(EdgesOf(g), p) && p[0] == start && p[|p| - 1] == goal
  }

  // The goal's distance, if it has one, is the least; if not, nothing leads there.
  ghost predicate Answered(g: Grid, start: St, goal: St, s: Search<St>) {
    forall p | Connects(g, start, goal, p) :: goal in s.dist && Cost(EdgesOf(g), p) >= s.dist[goal]
  }

  lemma GoalPopped(g: Grid, start: St, goal: St, s: Search<St>, heap: seq<Item<St>>, e: Item<St>, rest: seq<Item<St>>)
    requires Inv(EdgesOf(g), start, s, heap) && Popped(heap, e, rest) && e.node == goal && e.dist == s.dist[goal]
    ensures Answered(g, start, goal, s)
  {
    WeightsNonNegative(g);
    forall p | Connects(g, start, goal, p) ensures Cost(EdgesOf(g), p) >= s.dist[goal] {
      NoCheaperWalk(EdgesOf(g), start, s, heap, p, e.dist);
    }
  }

  lemma HeapEmptied(g: Grid, start: St, goal: St, s: Search<St>)
    requires Inv(EdgesOf(g), start, s, [])
    ensures Answered(g, start, goal, s)
  {
    WeightsNonNegative(g);
    forall p | Connects(g, start, goal, p) ensures goal in s.dist && Cost(EdgesOf(g), p) >= s.dist[goal] {
      NoCheaperWalk(EdgesOf(g), start, s, [], p, Cost(EdgesOf(g), p) + 1.0);
      AllReached(EdgesOf(g), start, s, p);
    }
  }

  // Every recorded distance is that of the walk the predecessor table spells.
  ghost predicate Charted(g: Grid, start: St, s: Search<St>, dist: seq<Option<real>>, prev: seq<int>) {
    && DistTable(g, dist, s) && PrevTable(g, prev, s, start)
    && start in s.walk && s.walk[start] == [start] && s.walk.Keys == s.dist.Keys
    && s.settled <= s.dist.Keys
    && forall n {:trigger Reached(EdgesOf(g), start, s, n)} | n in s.dist :: Reached(EdgesOf(g), start, s, n)
  }

  function AllStates(g: Grid): set<St> {
    set i, j, d | 0 <= i < |g.xs| && 0 <= j < |g.ys| && d in {Right, Left, Down, Up, NoDir} :: St(i, j, d)
  }

  lemma OneFewer(g: Grid, s: Search<St>, n: St)
    requires Valid(g, n) && n !in s.settled
    ensures AllStates(g) - (s.settled + {n}) < AllStates(g) - s.settled
  {
    assert n.dir in {Right, Left, Down, Up, NoDir} by {
      match n.dir case Right => case Left => case Down => case Up => case NoDir =>
    }
    assert n in AllStates(g) - s.settled;
  }

  method Explore(g: Grid, start: St, goal: St) returns (dist: array<Option<real>>, prev: array<int>, ghost s: Search<St>)
    requires Valid(g, start)
    ensures Charted(g, start, s, dist[..], prev[..]) && Answered(g, start, goal, s)
  {
    IndexInRange(g, start);
    dist := new Option<real>[Size(g)](_ => None);
    prev := new int[Size(g)](_ => -1);
    assert dist[..] == seq(Size(g), _ => None) && prev[..] == seq(Size(g), _ => -1);
    dist[Index(g, start)] := Some(0.0);
    assert dist[..] == seq(Size(g), _ => None)[Index(g, start) := Some(0.0)];
    var heap := [Item(start, 0.0)];
    s := Search(map[start := 0.0], map[start := [start]], {});
    InitialTables(g, start);
    InitInv(EdgesOf(g), start);
    while heap != []
      invariant Inv(EdgesOf(g), start, s, heap) && DistTable(g, dist[..], s) && PrevTable(g, prev[..], s, start)
      decreases AllStates(g) - s.settled, |heap|
    {
      var e, rest := Pop(g, heap);
      assert e in heap && dist[..][Index(g, e.node)] == Some(s.dist[e.node]);
      if e.dist > dist[Index(g, e.node)].value {
        DropStale(EdgesOf(g), start, s, heap, e, rest);
        heap := rest;
        continue;
      }
      Settle(EdgesOf(g), start, s, heap, e, rest);
      if e.node == goal {
        GoalPopped(g, start, goal, s, heap, e, rest);
        return;
      }
      OneFewer(g, s, e.node);
      ghost var s0 := s.(settled := s.settled + {e.node});
      heap, s := RelaxMoves(g, start, e.node, dist, prev, rest, s0);
      AllMoves(g, s0, s, e.node);
      RelaxedAll(EdgesOf(g), start, s, heap, e.node);
    }
    HeapEmptied(g, start, goal, s);
  }

  // ---- the route ---------------------------------------------------------------------------------------

  method Reverse(s: seq<int>) returns (t: seq<int>)
    ensures |t| == |s| && forall k | 0 <= k < |s| :: t[k] == s[|s| - 1 - k]
  {
    t := s;
    var l, r := 0, |s| - 1;
    while l < r
      invariant |t| == |s| && 0 <= l && l + r == |s| - 1 && l <= r + 1
      invariant forall k | 0 <= k < l :: t[k] == s[|s| - 1 - k]
      invariant forall k | r < k < |s| :: t[k] == s[|s| - 1 - k]
      invariant forall k | l <= k <= r :: t[k] == s[k]
    {
      t := t[l := t[r]][r := t[l]];
      l, r := l + 1, r - 1;
    }
  }

  // The table's entry for a node is the end of its walk but one.
  lemma StepBack(g: Grid, start: St, dist: seq<Option<real>>, prev: seq<int>, s: Search<St>, cur: St) returns (before: St)
    requires Charted(g, start, s, dist, prev) && cur in s.dist
    ensures 0 <= Index(g, cur) < |prev| && cur in s.walk
    ensures var w := s.walk[cur];
      && |w| >= 1 && w[|w| - 1] == cur
      && if |w| == 1 then prev[Index(g, cur)] == -1
         else before in s.dist && before in s.walk && prev[Index(g, cur)] == Index(g, before) >= 0 && s.walk[before] == w[..|w| - 1]
  {
    assert Reached(EdgesOf(g), start, s, cur) && Valid(g, cur);
    var w := s.walk[cur];
    before := if |w| == 1 then cur else w[|w| - 2];
    assert before in s.dist;
    IndexInRange(g, before);
  }

  // The states from the start to the goal, read backwards from the table.
  method Trace(g: Grid, start: St, goal: St, dist: seq<Option<real>>, prev: seq<int>, ghost s: Search<St>) returns (states: seq<int>)
    requires Charted(g, start, s, dist, prev) && goal in s.dist
    ensures |states| == |s.walk[goal]| && forall k | 0 <= k < |states| :: states[k] == Index(g, s.walk[goal][k])
  {
    ghost var w, cur := s.walk[goal], goal;
    var rev, st := [], Index(g, goal);
    assert w[..|w|] == w;
    IndexInRange(g, goal);
    while st != -1
      invariant |rev| <= |w| && (st == -1 ==> |rev| == |w|)
      invariant st != -1 ==> cur in s.dist && st == Index(g, cur) && s.walk[cur] == w[..|w| - |rev|]
      invariant forall k | 0 <= k < |rev| :: rev[k] == Index(g, w[|w| - 1 - k])
      decreases |w| - |rev|, if st == -1 then 0 else 1
    {
      ghost var before := StepBack(g, start, dist, prev, s, cur);
      assert w[|w| - 1 - |rev|] == cur;
      rev := rev + [st];
      st := prev[st];
      assert w[..|w| - |rev| + 1][..|w| - |rev|] == w[..|w| - |rev|];
      cur := before;
    }
    states := Reverse(rev);
  }

  lemma WalkIsPath(g: Grid, start: St, goal: St, p: seq<St>)
    requires Connects(g, start, goal, p) && Valid(g, start)
    ensures Path(g, p)
  {
    forall i | 0 <= i < |p| ensures Valid(g, p[i]) {
      if i > 0 {
        assert EdgesOf(g)(p[i - 1], p[i]).Some?;
      }
    }
  }

  method Waypoints(g: Grid, states: seq<int>, ghost p: seq<St>) returns (pts: seq<Point>)
    requires |states| == |p| && forall k | 0 <= k < |p| :: Valid(g, p[k]) && states[k] == Index(g, p[k])
    ensures pts == PointsOf(g, p)
  {
    pts := [];
    for k := 0 to |states|
      invariant |pts| == k && forall m | 0 <= m < k :: pts[m] == At(g, p[m])
    {
      DecodeCell(g, p[k]);
      var cell := states[k] / 5;
      pts := pts + [Point(g.xs[cell % Width(g)], g.ys[cell / Width(g)])];
    }
  }

  // The grid has the lines a route may run on, and no others.
  ghost predicate Covers(g: Grid, x1: real, y1: real, x2: real, y2: real) {
    && Straight(g)
    && (forall v :: v in g.xs <==> Line(v, MarksX(x1, x2, g.obstacles)))
    && forall v :: v in g.ys <==> Line(v, MarksY(y1, y2, g.obstacles))
  }

  lemma EdgesAddedX(x1: real, x2: real, ex: seq<real>, ex1: seq<real>, obstacles: seq<Rect>, obstacles1: seq<Rect>, r: Rect)
    requires {x1, x2} + (set e | e in ex) == MarksX(x1, x2, obstacles) && ex1 == ex + [r.x, r.x + r.w] && obstacles1 == obstacles + [r]
    ensures {x1, x2} + (set e | e in ex1) == MarksX(x1, x2, obstacles1)
  {
    assert (set e | e in ex1) == (set e | e in ex) + {r.x, r.x + r.w};
    assert (set o | o in obstacles1 :: o.x) == (set o | o in obstacles :: o.x) + {r.x};
    assert (set o | o in obstacles1 :: o.x + o.w) == (set o | o in obstacles :: o.x + o.w) + {r.x + r.w};
  }

  lemma EdgesAddedY(y1: real, y2: real, ey: seq<real>, ey1: seq<real>, obstacles: seq<Rect>, obstacles1: seq<Rect>, r: Rect)
    requires {y1, y2} + (set e | e in ey) == MarksY(y1, y2, obstacles) && ey1 == ey + [r.y, r.y + r.h] && obstacles1 == obstacles + [r]
    ensures {y1, y2} + (set e | e in ey1) == MarksY(y1, y2, obstacles1)
  {
    assert (set e | e in ey1) == (set e | e in ey) + {r.y, r.y + r.h};
    assert (set o | o in obstacles1 :: o.y) == (set o | o in obstacles :: o.y) + {r.y};
    assert (set o | o in obstacles1 :: o.y + o.h) == (set o | o in obstacles :: o.y + o.h) + {r.y + r.h};
  }

  method MakeGrid(x1: real, y1: real, x2: real, y2: real, obstacles: seq<Rect>) returns (g: Grid)
    ensures g.obstacles == obstacles && Covers(g, x1, y1, x2, y2)
  {
    var ex, ey := [], [];
    for i := 0 to |obstacles|
      invariant {x1, x2} + (set e | e in ex) == MarksX(x1, x2, obstacles[..i])
      invariant {y1, y2} + (set e | e in ey) == MarksY(y1, y2, obstacles[..i])
    {
      var r := obstacles[i];
      EdgesAddedX(x1, x2, ex, ex + [r.x, r.x + r.w], obstacles[..i], obstacles[..i + 1], r);
      EdgesAddedY(y1, y2, ey, ey + [r.y, r.y + r.h], obstacles[..i], obstacles[..i + 1], r);
      ex, ey := ex + [r.x, r.x + r.w], ey + [r.y, r.y + r.h];
    }
    assert obstacles[..|obstacles|] == obstacles;
    var xs := GridLines(x1, x2, ex);
    var ys := GridLines(y1, y2, ey);
    g := Grid(xs, ys, obstacles);
  }

  predicate Ports(g: Grid, x1: real, y1: real, x2: real, y2: real, start: St, goal: St) {
    && Valid(g, start) && At(g, start) == Point(x1, y1) && start.dir.NoDir?
    && Valid(g, goal) && At(g, goal) == Point(x2, y2) && goal.dir.Right?
  }

  lemma OnLines(g: Grid, x1: real, y1: real, x2: real, y2: real, p: seq<St>)
    requires Covers(g, x1, y1, x2, y2) && forall i | 0 <= i < |p| :: Valid(g, p[i])
    ensures var pts := PointsOf(g, p);
      forall i | 0 <= i < |pts| :: Line(pts[i].x, MarksX(x1, x2, g.obstacles)) && Line(pts[i].y, MarksY(y1, y2, g.obstacles))
  {
    var pts := PointsOf(g, p);
    forall i | 0 <= i < |pts| ensures Line(pts[i].x, MarksX(x1, x2, g.obstacles)) && Line(pts[i].y, MarksY(y1, y2, g.obstacles)) {
      assert g.xs[p[i].i] in g.xs && g.ys[p[i].j] in g.ys;
    }
  }

  lemma Assembled(g: Grid, x1: real, y1: real, x2: real, y2: real, p: seq<St>, pts: seq<Point>)
    requires |p| == |pts| >= 2 && p[1].dir == Right && p[|p| - 1].dir == Right
    requires pts[0] == Point(x1, y1) && pts[|pts| - 1] == Point(x2, y2)
    requires forall i | 0 <= i < |pts| :: Line(pts[i].x, MarksX(x1, x2, g.obstacles)) && Line(pts[i].y, MarksY(y1, y2, g.obstacles))
    requires forall i, j | 0 <= i < j < |pts| && j == i + 1 :: pts[i] != pts[j] && Clear(pts[i], pts[j], g.obstacles) && Heading(pts[i], pts[j]) == p[j].dir
    ensures Route(pts, x1, y1, x2, y2, g.obstacles)
  {
    var i, j, k := 0, 1, |pts| - 2;
    assert Heading(pts[i], pts[j]) == p[j].dir && Heading(pts[k], pts[k + 1]) == p[k + 1].dir;
  }

  lemma PathIsRoute(g: Grid, x1: real, y1: real, x2: real, y2: real, p: seq<St>)
    requires Covers(g, x1, y1, x2, y2) && Path(g, p) && |p| >= 2 && Ports(g, x1, y1, x2, y2, p[0], p[|p| - 1])
    ensures Route(PointsOf(g, p), x1, y1, x2, y2, g.obstacles)
  {
    PathStep(g, p, 0);
    PointsMove(g, p);
    OnLines(g, x1, y1, x2, y2, p);
    Assembled(g, x1, y1, x2, y2, p, PointsOf(g, p));
  }

  // The walks from the one port to the other are the routes between them.
  lemma WalkIsRoute(g: Grid, x1: real, y1: real, x2: real, y2: real, start: St, goal: St, p: seq<St>)
    requires Covers(g, x1, y1, x2, y2) && Ports(g, x1, y1, x2, y2, start, goal) && Connects(g, start, goal, p)
    ensures Path(g, p) && Route(PointsOf(g, p), x1, y1, x2, y2, g.obstacles)
    ensures Cost(EdgesOf(g), p) == RouteCost(PointsOf(g, p))
  {
    WalkIsPath(g, start, goal, p);
    CostIsLengthAndBends(g, p);
    PathIsRoute(g, x1, y1, x2, y2, p);
  }

  lemma RouteIsWalk(g: Grid, x1: real, y1: real, x2: real, y2: real, start: St, goal: St, q: seq<Point>) returns (p: seq<St>)
    requires Covers(g, x1, y1, x2, y2) && Ports(g, x1, y1, x2, y2, start, goal) && Route(q, x1, y1, x2, y2, g.obstacles)
    ensures Connects(g, start, goal, p) && Cost(EdgesOf(g), p) == RouteCost(q)
  {
    var u;
    p, u := PolylineWalks(g, start, q, |q| - 1);
    assert q[..|q|] == q;
    SamePlace(g, u, goal);
  }

  lemma SamePlace(g: Grid, u: St, v: St)
    requires Straight(g) && Valid(g, u) && Valid(g, v) && At(g, u) == At(g, v) && u.dir == v.dir
    ensures u == v
  {
    assert !(u.i < v.i) && !(v.i < u.i) && !(u.j < v.j) && !(v.j < u.j);
  }

  // A right-angle route from (x1, y1) to (x2, y2) around the obstacles, if there is one;
  // none is shorter, counting 24 a bend.
  method RouteEdge(x1: real, y1: real, x2: real, y2: real, obstacles: seq<Rect>) returns (route: Option<seq<Point>>)
    ensures route.Some? <==> x1 < x2 && exists q :: Route(q, x1, y1, x2, y2, obstacles)
    ensures route.Some? ==> Best(route.value, x1, y1, x2, y2, obstacles)
  {
    if x2 <= x1 {
      return None;
    }
    var g := MakeGrid(x1, y1, x2, y2, obstacles);
    var si := IndexOf(g.xs, x1);
    var sj := IndexOf(g.ys, y1);
    var gi := IndexOf(g.xs, x2);
    var gj := IndexOf(g.ys, y2);
    var start, goal := St(si, sj, NoDir), St(gi, gj, Right);
    var dist, prev, s := Explore(g, start, goal);
    IndexInRange(g, goal);
    assert dist[..][Index(g, goal)] == if goal in s.dist then Some(s.dist[goal]) else None;
    if dist[Index(g, goal)].None? {
      NoRoute(g, x1, y1, x2, y2, start, goal, s);
      return None;
    }
    assert Reached(EdgesOf(g), start, s, goal);
    ghost var best := s.walk[goal];
    BestRoute(g, x1, y1, x2, y2, start, goal, s, best);
    var states := Trace(g, start, goal, dist[..], prev[..], s);
    var pts := Waypoints(g, states, best);
    var simple := SimplifyRoute(pts);
    route := Some(simple);
  }

  lemma NoRoute(g: Grid, x1: real, y1: real, x2: real, y2: real, start: St, goal: St, s: Search<St>)
    requires Covers(g, x1, y1, x2, y2) && Ports(g, x1, y1, x2, y2, start, goal) && Answered(g, start, goal, s) && goal !in s.dist
    ensures !exists q :: Route(q, x1, y1, x2, y2, g.obstacles)
  {
    if q :| Route(q, x1, y1, x2, y2, g.obstacles) {
      var p := RouteIsWalk(g, x1, y1, x2, y2, start, goal, q);
    }
  }

  // The walk the search ends with is drawn as a route that no route is shorter than,
  // and that enters no obstacle.
  lemma BestRoute(g: Grid, x1: real, y1: real, x2: real, y2: real, start: St, goal: St, s: Search<St>, best: seq<St>)
    requires Covers(g, x1, y1, x2, y2) && Ports(g, x1, y1, x2, y2, start, goal) && Answered(g, start, goal, s)
    requires Connects(g, start, goal, best) && goal in s.dist && Cost(EdgesOf(g), best) == s.dist[goal]
    ensures Path(g, best) && Route(PointsOf(g, best), x1, y1, x2, y2, g.obstacles)
    ensures Best(Simplified(PointsOf(g, best)), x1, y1, x2, y2, g.obstacles)
  {
    WalkIsRoute(g, x1, y1, x2, y2, start, goal, best);
    RouteIsFree(g, best);
    SimplifiedIsCheaper(PointsOf(g, best));
    forall q | Route(q, x1, y1, x2, y2, g.obstacles) ensures RouteCost(PointsOf(g, best)) <= RouteCost(q) {
      var p := RouteIsWalk(g, x1, y1, x2, y2, start, goal, q);
    }
  }
}
