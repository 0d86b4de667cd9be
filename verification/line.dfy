/**
 * The line drawable of src/lib/engine/Line.ts: a one-pixel Bresenham rasteriser in screen
 * space, or a single stroked segment for any other width.
 */
module Lines {
  import opened Canvas
  import opened Cameras

  /** A segment between two points given relative to the parent's world position. */
  datatype Line = Line(color: string, width: int, from: Point, to: Point)

  function Abs(n: int): nat { if n < 0 then -n else n }

  function Max(a: int, b: int): int { if a < b then b else a }

  /** What Bresenham's algorithm fixes before its loop: endpoints, distances and directions. */
  datatype Plan = Plan(x0: int, y0: int, x1: int, y1: int, dx: int, dy: int, sx: int, sy: int)

  /** The loop's variables: the current pixel and the error term. */
  datatype Cursor = Cursor(x: int, y: int, err: int)

  function PlanFor(from: Point, to: Point): Plan {
    Plan(from.x, from.y, to.x, to.y, Abs(to.x - from.x), Abs(to.y - from.y),
         if from.x < to.x then 1 else -1, if from.y < to.y then 1 else -1)
  }

  function Start(p: Plan): Cursor { Cursor(p.x0, p.y0, p.dx - p.dy) }

  predicate AtEnd(c: Cursor, p: Plan) { c.x == p.x1 && c.y == p.y1 }

  /** The x half of the decision rule. */
  function HalfStep(c: Cursor, p: Plan): Cursor {
    if 2 * c.err > -p.dy then Cursor(c.x + p.sx, c.y, c.err - p.dy) else c
  }

  /** One application of the decision rule: step in x, in y, or in both. */
  function Step(c: Cursor, p: Plan): Cursor {
    var c1 := HalfStep(c, p);
    if 2 * c.err < p.dx then Cursor(c1.x, c1.y + p.sy, c1.err + p.dx) else c1
  }

  /** The cursor after n iterations of the loop. */
  function Reached(p: Plan, n: nat): Cursor {
    if n == 0 then Start(p) else Step(Reached(p, n - 1), p)
  }

  function Pixel(c: Cursor): Point { Point(c.x, c.y) }

  /** The pixels plotted by the first n iterations of the loop, one per iteration. */
  function Trace(p: Plan, n: nat): (t: seq<Point>)
    ensures |t| == n && forall k :: 0 <= k < n ==> t[k] == Pixel(Reached(p, k))
  {
    if n == 0 then [] else Trace(p, n - 1) + [Pixel(Reached(p, n - 1))]
  }

  /**
   * The pixels of the segment from `from` to `to`: the decision rule applied max(dx, dy)
   * times from the start point (RasterShape: it then stands on the end point).
   */
  function Raster(from: Point, to: Point): seq<Point> {
    var p := PlanFor(from, to);
    Trace(p, Max(p.dx, p.dy) + 1)
  }

  /** b follows a in the directions of the plan, one pixel at most in each coordinate. */
  predicate Adjacent(a: Point, b: Point, p: Plan) {
    && (b.x == a.x || b.x == a.x + p.sx)
    && (b.y == a.y || b.y == a.y + p.sy)
    && a != b
  }

  /** How many x (y) steps the cursor has taken since the start. */
  function XDone(c: Cursor, p: Plan): int { if p.sx == 1 then c.x - p.x0 else p.x0 - c.x }
  function YDone(c: Cursor, p: Plan): int { if p.sy == 1 then c.y - p.y0 else p.y0 - c.y }

  /**
   * a added b times. The invariant below keeps its products behind this function so that the
   * solver treats them as opaque terms; MulIsProduct connects it to `*`.
   */
  function Mul(a: int, b: nat): int {
    if b == 0 then 0 else Mul(a, b - 1) + a
  }

  lemma {:induction false} MulIsProduct(a: int, b: nat)
    ensures Mul(a, b) == a * b
  {
    if b > 0 { MulIsProduct(a, b - 1); }
  }

  lemma MulLe(a: nat, b: nat, c: nat)
    requires b <= c
    ensures Mul(a, b) <= Mul(a, c)
  {
    MulIsProduct(a, b);
    MulIsProduct(a, c);
    assert a * c - a * b == a * (c - b);
  }

  lemma MulComm(a: nat, b: nat)
    ensures Mul(a, b) == Mul(b, a)
  {
    MulIsProduct(a, b);
    MulIsProduct(b, a);
  }

  /** The plan is the one drawBresenhamLine computes for its endpoints. */
  predicate Planned(p: Plan) {
    p == PlanFor(Point(p.x0, p.y0), Point(p.x1, p.y1))
  }

  /**
   * What holds of the cursor after n iterations: it has taken i x-steps and j y-steps without
   * passing the end, the error term is dx(j+1) - dy(i+1), every iteration stepped along the
   * major axis, and the scaled deviation from the ideal line, 2(dy i - dx j), stays in a window
   * of one pixel.
   */
  ghost predicate Inv(c: Cursor, p: Plan, n: nat) {
    var i := XDone(c, p);
    var j := YDone(c, p);
    var dev := 2 * p.dx - 2 * p.dy - 2 * c.err;
    && Planned(p)
    && 0 <= i <= p.dx && 0 <= j <= p.dy
    && c.err == Mul(p.dx, j + 1) - Mul(p.dy, i + 1)
    && (if p.dx >= p.dy then n == i else n == j)
    && (p.dx == p.dy ==> i == j)
    && (p.dx >= p.dy && p.dx > 0 ==> -p.dx < dev <= p.dx)
    && (p.dx < p.dy ==> -p.dy <= dev < p.dy)
  }

  lemma StartInv(p: Plan)
    requires Planned(p)
    ensures Inv(Start(p), p, 0)
  {
  }

  /** One iteration away from the end point keeps the invariant. */
  lemma StepKeepsInv(c: Cursor, p: Plan, n: nat)
    requires Inv(c, p, n) && !AtEnd(c, p)
    ensures Inv(Step(c, p), p, n + 1)
  {
    if p.dx >= p.dy {
      StepXMajor(c, p, n);
    } else {
      StepYMajor(c, p, n);
    }
  }

  /** Along a mostly horizontal segment every iteration steps in x, and in y when due. */
  lemma StepXMajor(c: Cursor, p: Plan, n: nat)
    requires Inv(c, p, n) && !AtEnd(c, p) && p.dx >= p.dy
    ensures Inv(Step(c, p), p, n + 1)
  {
    var i, j := XDone(c, p), YDone(c, p);
    // the x end is not reached before the y end
    if i == p.dx && j < p.dy {
      MulLe(p.dx, j + 1, p.dy);
      MulComm(p.dx, p.dy);
      assert false;
    }
    assert i < p.dx;
    // so the x step is taken
    if p.dx == p.dy {
      assert c.err == 0;
    }
    // and the y step only while the y end is still ahead
    if j == p.dy {
      MulLe(p.dy, i + 1, p.dx);
      MulComm(p.dx, p.dy);
      assert Mul(p.dx, j + 1) == Mul(p.dx, p.dy) + p.dx;
    }
    if 2 * c.err < p.dx {
      StepDiagonal(c, p, n);
    } else {
      StepAcross(c, p, n);
    }
  }

  /** Along a mostly vertical segment every iteration steps in y, and in x when due. */
  lemma StepYMajor(c: Cursor, p: Plan, n: nat)
    requires Inv(c, p, n) && !AtEnd(c, p) && p.dx < p.dy
    ensures Inv(Step(c, p), p, n + 1)
  {
    var i, j := XDone(c, p), YDone(c, p);
    // the y end is not reached before the x end
    if j == p.dy && i < p.dx {
      MulLe(p.dy, i + 1, p.dx);
      MulComm(p.dx, p.dy);
      assert false;
    }
    assert j < p.dy;
    // and the x step only while the x end is still ahead
    if i == p.dx {
      MulLe(p.dx, j + 1, p.dy);
      MulComm(p.dx, p.dy);
      assert Mul(p.dy, i + 1) == Mul(p.dy, p.dx) + p.dy;
    }
    if 2 * c.err > -p.dy {
      StepDiagonal(c, p, n);
    } else {
      StepDown(c, p, n);
    }
  }

  /** A step in both x and y. */
  lemma StepDiagonal(c: Cursor, p: Plan, n: nat)
    requires Inv(c, p, n) && XDone(c, p) < p.dx && YDone(c, p) < p.dy
    requires -p.dy < 2 * c.err < p.dx
    ensures Inv(Step(c, p), p, n + 1)
  {
    var i, j := XDone(c, p), YDone(c, p);
    var s := Step(c, p);
    assert s == Cursor(c.x + p.sx, c.y + p.sy, c.err - p.dy + p.dx);
    assert XDone(s, p) == i + 1 && YDone(s, p) == j + 1;
    assert Mul(p.dx, j + 2) == Mul(p.dx, j + 1) + p.dx;
    assert Mul(p.dy, i + 2) == Mul(p.dy, i + 1) + p.dy;
  }

  /** A step in x alone, along a mostly horizontal segment. */
  lemma StepAcross(c: Cursor, p: Plan, n: nat)
    requires Inv(c, p, n) && p.dx >= p.dy && XDone(c, p) < p.dx
    requires 2 * c.err >= p.dx
    ensures Inv(Step(c, p), p, n + 1)
  {
    var i, j := XDone(c, p), YDone(c, p);
    var s := Step(c, p);
    assert s == Cursor(c.x + p.sx, c.y, c.err - p.dy);
    assert XDone(s, p) == i + 1 && YDone(s, p) == j;
    assert Mul(p.dy, i + 2) == Mul(p.dy, i + 1) + p.dy;
  }

  /** A step in y alone, along a mostly vertical segment. */
  lemma StepDown(c: Cursor, p: Plan, n: nat)
    requires Inv(c, p, n) && p.dx < p.dy && YDone(c, p) < p.dy
    requires 2 * c.err <= -p.dy
    ensures Inv(Step(c, p), p, n + 1)
  {
    var i, j := XDone(c, p), YDone(c, p);
    var s := Step(c, p);
    assert s == Cursor(c.x, c.y + p.sy, c.err + p.dx);
    assert XDone(s, p) == i && YDone(s, p) == j + 1;
    assert Mul(p.dx, j + 2) == Mul(p.dx, j + 1) + p.dx;
  }

  /** A step away from the end point moves to a neighbouring pixel in the direction of travel. */
  lemma StepMoves(c: Cursor, p: Plan, n: nat)
    requires Inv(c, p, n) && !AtEnd(c, p)
    ensures Adjacent(Pixel(c), Pixel(Step(c, p)), p)
  {
    StepKeepsInv(c, p, n);
  }

  /** A cursor satisfying the invariant is at the end point only after max(dx, dy) iterations. */
  lemma NotAtEndBefore(c: Cursor, p: Plan, n: nat)
    requires Inv(c, p, n) && n < Max(p.dx, p.dy)
    ensures !AtEnd(c, p)
  {
  }

  /** ... and it is there after exactly max(dx, dy) iterations. */
  lemma AtEndAfter(c: Cursor, p: Plan, n: nat)
    requires Inv(c, p, n) && n == Max(p.dx, p.dy)
    ensures AtEnd(c, p)
  {
    var i, j := XDone(c, p), YDone(c, p);
    if p.dx >= p.dy && j < p.dy {
      MulLe(p.dx, j + 1, p.dy);
      MulComm(p.dx, p.dy);
      assert false;
    }
    if p.dx < p.dy && i < p.dx {
      MulLe(p.dy, i + 1, p.dx);
      MulComm(p.dx, p.dy);
      assert false;
    }
  }

  /** Every cursor the loop reaches, up to its last pixel, satisfies the invariant. */
  lemma {:induction false} ReachedInv(p: Plan, n: nat)
    requires Planned(p) && n <= Max(p.dx, p.dy)
    ensures Inv(Reached(p, n), p, n)
  {
    if n == 0 {
      StartInv(p);
    } else {
      ReachedInv(p, n - 1);
      NotAtEndBefore(Reached(p, n - 1), p, n - 1);
      StepKeepsInv(Reached(p, n - 1), p, n - 1);
    }
  }

  /** The loop stands on the end point exactly when it has run max(dx, dy) times. */
  lemma ReachedEnd(p: Plan, n: nat)
    requires Planned(p) && n <= Max(p.dx, p.dy)
    ensures AtEnd(Reached(p, n), p) <==> n == Max(p.dx, p.dy)
  {
    ReachedInv(p, n);
    if n < Max(p.dx, p.dy) {
      NotAtEndBefore(Reached(p, n), p, n);
    } else {
      AtEndAfter(Reached(p, n), p, n);
    }
  }

  /** Before the end every iteration moves to a neighbouring pixel. */
  lemma ReachedMoves(p: Plan, n: nat)
    requires Planned(p) && n < Max(p.dx, p.dy)
    ensures Adjacent(Pixel(Reached(p, n)), Pixel(Reached(p, n + 1)), p)
  {
    ReachedInv(p, n);
    ReachedEnd(p, n);
    StepMoves(Reached(p, n), p, n);
  }

  /**
   * The rasterised segment starts at `from`, ends at `to`, has max(dx, dy) + 1 pixels (so one
   * pixel when from == to), and every pixel is a neighbour of the previous one in the
   * direction of travel.
   */
  lemma RasterShape(from: Point, to: Point)
    ensures var r := Raster(from, to);
      && |r| == Max(Abs(to.x - from.x), Abs(to.y - from.y)) + 1
      && r[0] == from && r[|r| - 1] == to
      && forall k :: 0 < k < |r| ==> Adjacent(r[k - 1], r[k], PlanFor(from, to))
  {
    var p := PlanFor(from, to);
    var r := Raster(from, to);
    ReachedEnd(p, Max(p.dx, p.dy));
    forall k | 0 < k < |r|
      ensures Adjacent(r[k - 1], r[k], p)
    {
      ReachedMoves(p, k - 1);
    }
  }

  /** The worked example: the segment (0,0)-(5,3). */
  lemma RasterExample()
    ensures Raster(Point(0, 0), Point(5, 3))
         == [Point(0, 0), Point(1, 1), Point(2, 1), Point(3, 2), Point(4, 2), Point(5, 3)]
  {
    var p := PlanFor(Point(0, 0), Point(5, 3));
    assert p == Plan(0, 0, 5, 3, 5, 3, 1, 1);
    assert Reached(p, 1) == Cursor(1, 1, 4);
    assert Reached(p, 2) == Cursor(2, 1, 1);
    assert Reached(p, 3) == Cursor(3, 2, 3);
    assert Reached(p, 4) == Cursor(4, 2, 0);
    assert Reached(p, 5) == Cursor(5, 3, 2);
  }

  /** drawBresenhamLine's loop, producing the pixels it plots in order. */
  method Bresenham(from: Point, to: Point) returns (pixels: seq<Point>)
    ensures pixels == Raster(from, to)
  {
    var x0, y0 := from.x, from.y;
    var x1, y1 := to.x, to.y;
    var dx: int := Abs(x1 - x0);
    var dy: int := Abs(y1 - y0);
    var sx := if x0 < x1 then 1 else -1;
    var sy := if y0 < y1 then 1 else -1;
    var err := dx - dy;
    ghost var p := PlanFor(from, to);
    ghost var n: nat := 0;
    pixels := [];
    while true
      invariant Planned(p)
      invariant x1 == p.x1 && y1 == p.y1 && dx == p.dx && dy == p.dy && sx == p.sx && sy == p.sy
      invariant n <= Max(p.dx, p.dy)
      invariant Reached(p, n) == Cursor(x0, y0, err)
      invariant pixels == Trace(p, n)
      decreases Max(p.dx, p.dy) - n
    {
      pixels := pixels + [Point(x0, y0)];
      ReachedEnd(p, n);
      if x0 == x1 && y0 == y1 {
        break;
      }
      x0, y0, err := Advance(x0, y0, err, dx, dy, sx, sy, p);
      n := n + 1;
    }
  }

  /** The body of drawBresenhamLine's loop after plotting: the decision rule on the error term. */
  method Advance(x: int, y: int, err: int, dx: int, dy: int, sx: int, sy: int, ghost p: Plan)
    returns (x': int, y': int, err': int)
    requires dx == p.dx && dy == p.dy && sx == p.sx && sy == p.sy
    ensures Cursor(x', y', err') == Step(Cursor(x, y, err), p)
  {
    x', y', err' := x, y, err;
    var e2 := 2 * err;
    if e2 > -dy {
      err' := err' - dy;
      x' := x' + sx;
    }
    if e2 < dx {
      err' := err' + dx;
      y' := y' + sy;
    }
  }

  function Plots(ps: seq<Point>): (cmds: seq<Cmd>)
    ensures |cmds| == |ps| && forall k :: 0 <= k < |ps| ==> cmds[k] == Plot(ps[k])
  {
    if ps == [] then [] else [Plot(ps[0])] + Plots(ps[1..])
  }

  /**
   * What drawing a line between the screen points a and b issues: width 1 plots the
   * rasterised pixels in the line's colour, any other width strokes one segment.
   */
  function SegmentCommands(l: Line, a: Point, b: Point): seq<Cmd> {
    if l.width == 1 then [SetFill(Solid(l.color))] + Plots(Raster(a, b))
    else [Stroke(a, b, l.width, l.color)]
  }

  /** Drawing a line: its endpoints are the parent position plus `from`/`to`, taken to the screen. */
  function LineCommands(l: Line, cam: Camera, px: int, py: int): seq<Cmd>
    reads cam
  {
    SegmentCommands(l, cam.WorldToScreen(px + l.from.x, py + l.from.y),
                    cam.WorldToScreen(px + l.to.x, py + l.to.y))
  }

  method DrawLine(l: Line, cam: Camera, px: int, py: int) returns (cmds: seq<Cmd>)
    ensures cmds == LineCommands(l, cam, px, py)
  {
    var a := cam.WorldToScreen(px + l.from.x, py + l.from.y);
    var b := cam.WorldToScreen(px + l.to.x, py + l.to.y);
    if l.width == 1 {
      var pixels := Bresenham(a, b);
      cmds := [SetFill(Solid(l.color))] + Plots(pixels);
    } else {
      cmds := [Stroke(a, b, l.width, l.color)];
    }
  }

  /**
   * A one-pixel line plots first its start point and last its end point, one pixel per step of
   * the longer axis, after setting its colour; any other width is one stroke.
   */
  lemma SegmentEndpoints(l: Line, a: Point, b: Point)
    ensures var cmds := SegmentCommands(l, a, b);
      && (l.width == 1 ==>
            && |cmds| == Max(Abs(b.x - a.x), Abs(b.y - a.y)) + 2
            && cmds[0] == SetFill(Solid(l.color))
            && cmds[1] == Plot(a) && cmds[|cmds| - 1] == Plot(b))
      && (l.width != 1 ==> cmds == [Stroke(a, b, l.width, l.color)])
  {
    RasterShape(a, b);
  }
}
