// Routes among obstacles, apart from how one is found: the lines a route may run
// on, what it may not enter, and what it costs.

module Routes {
  import opened Geometry

  const EPS := 0.000001
  const BEND_PENALTY := 24.0
  const MARGIN := 16.0

  datatype Point = Point(x: real, y: real)

  // NoDir is the direction of a step that goes nowhere.
  datatype Dir = Right | Left | Down | Up | NoDir

  function Abs(x: real): real {
    if x < 0.0 then -x else x
  }

  function Lower(a: real, b: real): real {
    if a > b then b else a
  }

  function Upper(a: real, b: real): real {
    if a > b then a else b
  }

  function Manhattan(a: Point, b: Point): real {
    Abs(b.x - a.x) + Abs(b.y - a.y)
  }

  function Heading(a: Point, b: Point): Dir {
    if b.x > a.x then Right
    else if b.x < a.x then Left
    else if b.y > a.y then Down
    else if b.y < a.y then Up
    else NoDir
  }

  // ---- obstacles ----------------------------------------------------------------------------

  // An axis-parallel segment contains a point.
  predicate On(q: Point, a: Point, b: Point) {
    || (a.x == b.x == q.x && Lower(a.y, b.y) <= q.y <= Upper(a.y, b.y))
    || (a.y == b.y == q.y && Lower(a.x, b.x) <= q.x <= Upper(a.x, b.x))
  }

  predicate Inside(q: Point, r: Rect) {
    r.x + EPS < q.x < r.x + r.w - EPS && r.y + EPS < q.y < r.y + r.h - EPS
  }

  predicate Free(q: Point, obstacles: seq<Rect>) {
    forall r | r in obstacles :: !Inside(q, r)
  }

  ghost predicate FreeSegment(a: Point, b: Point, obstacles: seq<Rect>) {
    (a.x == b.x || a.y == b.y) && forall q | On(q, a, b) :: Free(q, obstacles)
  }

  ghost predicate FreeRoute(pts: seq<Point>, obstacles: seq<Rect>) {
    forall i, j | 0 <= i < j < |pts| && j == i + 1 :: FreeSegment(pts[i], pts[j], obstacles)
  }

  // The box of a segment reaches into an obstacle.
  predicate Enters(a: Point, b: Point, r: Rect) {
    && Upper(a.x, b.x) > r.x + EPS && Lower(a.x, b.x) < r.x + r.w - EPS
    && Upper(a.y, b.y) > r.y + EPS && Lower(a.y, b.y) < r.y + r.h - EPS
  }

  function Between(lo: real, hi: real, from: real, to: real): (v: real)
    requires lo <= hi && from < to && hi > from && lo < to
    ensures lo <= v <= hi && from < v < to
  {
    if lo > from then lo else if hi < to then hi else (from + to) / 2.0
  }

  // It does so exactly when a point of the segment is inside, but for obstacles too
  // thin to have an inside.
  lemma EntersAtPoint(a: Point, b: Point, r: Rect)
    requires a.x == b.x || a.y == b.y
    ensures forall q | On(q, a, b) && Inside(q, r) :: Enters(a, b, r)
    ensures r.w > 2.0 * EPS && r.h > 2.0 * EPS && Enters(a, b, r) ==> exists q :: On(q, a, b) && Inside(q, r)
  {
    if r.w > 2.0 * EPS && r.h > 2.0 * EPS && Enters(a, b, r) {
      var x := Between(Lower(a.x, b.x), Upper(a.x, b.x), r.x + EPS, r.x + r.w - EPS);
      var y := Between(Lower(a.y, b.y), Upper(a.y, b.y), r.y + EPS, r.y + r.h - EPS);
      assert On(Point(x, y), a, b) && Inside(Point(x, y), r);
    }
  }

  // An axis-parallel segment that enters no obstacle.
  predicate Clear(a: Point, b: Point, obstacles: seq<Rect>) {
    (a.x == b.x || a.y == b.y) && forall r | r in obstacles :: !Enters(a, b, r)
  }

  // Among obstacles that have an inside, clear segments are those whose points are free.
  lemma ClearIsFree(a: Point, b: Point, obstacles: seq<Rect>)
    ensures Clear(a, b, obstacles) ==> FreeSegment(a, b, obstacles)
    ensures (forall r | r in obstacles :: r.w > 2.0 * EPS && r.h > 2.0 * EPS) ==>
      (FreeSegment(a, b, obstacles) ==> Clear(a, b, obstacles))
  {
    if a.x == b.x || a.y == b.y {
      forall r | r in obstacles
        ensures forall q | On(q, a, b) && Inside(q, r) :: Enters(a, b, r)
        ensures r.w > 2.0 * EPS && r.h > 2.0 * EPS && Enters(a, b, r) ==> exists q :: On(q, a, b) && Inside(q, r)
      {
        EntersAtPoint(a, b, r);
      }
    }
  }

  // ---- lines --------------------------------------------------------------------------------

  function MarksX(x1: real, x2: real, obstacles: seq<Rect>): set<real> {
    {x1, x2} + (set r | r in obstacles :: r.x) + (set r | r in obstacles :: r.x + r.w)
  }

  function MarksY(y1: real, y2: real, obstacles: seq<Rect>): set<real> {
    {y1, y2} + (set r | r in obstacles :: r.y) + (set r | r in obstacles :: r.y + r.h)
  }

  // Through a mark, or a margin away outside of all of them.
  predicate Line(v: real, marks: set<real>) {
    || v in marks
    || (v + MARGIN in marks && forall m | m in marks :: v + MARGIN <= m)
    || (v - MARGIN in marks && forall m | m in marks :: m <= v - MARGIN)
  }

  // ---- routes -------------------------------------------------------------------------------

  // A right-angle way from (x1, y1) to (x2, y2) with its corners on the lines, which
  // leaves and arrives to the right and enters no obstacle.
  ghost predicate Route(q: seq<Point>, x1: real, y1: real, x2: real, y2: real, obstacles: seq<Rect>) {
    && |q| >= 2 && q[0] == Point(x1, y1) && q[|q| - 1] == Point(x2, y2)
    && Heading(q[0], q[1]) == Right && Heading(q[|q| - 2], q[|q| - 1]) == Right
    && (forall i | 0 <= i < |q| :: Line(q[i].x, MarksX(x1, x2, obstacles)) && Line(q[i].y, MarksY(y1, y2, obstacles)))
    && forall i, j | 0 <= i < j < |q| && j == i + 1 :: q[i] != q[j] && Clear(q[i], q[j], obstacles)
  }

  // A point where the direction changes; a step that goes nowhere has none.
  predicate Bend(d: Dir, e: Dir) {
    d != e && !d.NoDir? && !e.NoDir?
  }

  // The length, and a penalty for each bend.
  function RouteCost(q: seq<Point>): real {
    if |q| <= 1 then 0.0
    else
      var n := |q|;
      RouteCost(q[..n - 1]) + Manhattan(q[n - 2], q[n - 1])
      + if n >= 3 && Bend(Heading(q[n - 3], q[n - 2]), Heading(q[n - 2], q[n - 1])) then BEND_PENALTY else 0.0
  }

  // From port to port, in no obstacle, and no route costs less.
  ghost predicate Best(pts: seq<Point>, x1: real, y1: real, x2: real, y2: real, obstacles: seq<Rect>) {
    && |pts| >= 2 && pts[0] == Point(x1, y1) && pts[|pts| - 1] == Point(x2, y2)
    && FreeRoute(pts, obstacles)
    && forall q | Route(q, x1, y1, x2, y2, obstacles) :: RouteCost(pts) <= RouteCost(q)
  }

  lemma CostPush(q: seq<Point>, x: Point)
    requires q != []
    ensures var n := |q|;
      RouteCost(q + [x]) == RouteCost(q) + Manhattan(q[n - 1], x)
        + if n >= 2 && Bend(Heading(q[n - 2], q[n - 1]), Heading(q[n - 1], x)) then BEND_PENALTY else 0.0
  {
    assert (q + [x])[..|q|] == q;
  }

  // ---- the border ---------------------------------------------------------------------------

  // The line a margin above everything.
  predicate Above(top: real, marks: set<real>) {
    top + MARGIN in marks && forall m | m in marks :: top + MARGIN <= m
  }

  lemma NothingAbove(a: Point, b: Point, y1: real, y2: real, obstacles: seq<Rect>)
    requires a.y == b.y && Above(a.y, MarksY(y1, y2, obstacles))
    ensures Clear(a, b, obstacles)
  {
    forall r | r in obstacles ensures !Enters(a, b, r) {
      assert r.y in MarksY(y1, y2, obstacles);
    }
  }

  // A route has both ports outside of all obstacles.
  lemma PortsAreFree(q: seq<Point>, x1: real, y1: real, x2: real, y2: real, obstacles: seq<Rect>)
    requires Route(q, x1, y1, x2, y2, obstacles)
    ensures Free(Point(x1, y1), obstacles) && Free(Point(x2, y2), obstacles)
  {
    var n := |q|;
    assert q[0] != q[1] && q[n - 2] != q[n - 1];
    ClearIsFree(q[0], q[1], obstacles);
    ClearIsFree(q[n - 2], q[n - 1], obstacles);
    assert On(q[0], q[0], q[1]) && On(q[n - 1], q[n - 2], q[n - 1]);
  }

  // The border is a detour: whatever stands between them, two ports are connected if
  // each can get out of its corridor and up along some line.
  lemma Detour(x1: real, y1: real, x2: real, y2: real, obstacles: seq<Rect>, xa: real, xb: real, top: real)
    returns (q: seq<Point>)
    requires x1 < xa && xb < x2 && Line(xa, MarksX(x1, x2, obstacles)) && Line(xb, MarksX(x1, x2, obstacles))
    requires Above(top, MarksY(y1, y2, obstacles))
    requires Clear(Point(x1, y1), Point(xa, y1), obstacles) && Clear(Point(xa, y1), Point(xa, top), obstacles)
    requires Clear(Point(xb, top), Point(xb, y2), obstacles) && Clear(Point(xb, y2), Point(x2, y2), obstacles)
    ensures Route(q, x1, y1, x2, y2, obstacles)
  {
    var marks := MarksY(y1, y2, obstacles);
    assert y1 in marks && y2 in marks && x1 in MarksX(x1, x2, obstacles) && x2 in MarksX(x1, x2, obstacles);
    NothingAbove(Point(xa, top), Point(xb, top), y1, y2, obstacles);
    var across := if xa == xb then [] else [Point(xb, top)];
    q := [Point(x1, y1), Point(xa, y1), Point(xa, top)] + across + [Point(xb, y2), Point(x2, y2)];
  }
}
