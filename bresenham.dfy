/** The integer line rasteriser the mapper uses to trace a ray from the robot's grid
    cell to the cell of a LiDAR return (`_bresenham_line`).

    The loop keeps `x, y, err`; the model also tracks how far it has come along each
    axis (`nx`, `ny`, the progress) so that the error term can be tied to the exact
    line: with `dx = |x1 - x0|`, `dy = |y1 - y0|` and `D = ny*dx - nx*dy` (twice the
    signed area between the ideal line and the current cell, scaled), the loop keeps
    `err == dx - dy + D` and `|2*D| <= max(dx, dy)`. From that follow termination, the
    end cell, the length and the shape of every step. */
module Bresenham {

  datatype Cell = Cell(x: int, y: int)

  function Abs(n: int): (r: nat)
    ensures r == n || r == -n
  {
    if n < 0 then -n else n
  }

  function Max(a: int, b: int): (r: int)
    ensures a <= r && b <= r && (r == a || r == b)
  {
    if a < b then b else a
  }

  /** The step direction along one axis: `1 if a < b else -1`. */
  function Dir(a: int, b: int): int
  {
    if a < b then 1 else -1
  }

  /** The coordinate `n` steps away from `a` in direction `s`, i.e. `a + s*n`. */
  function Offset(a: int, s: int, n: int): int
  {
    if s == 1 then a + n else a - n
  }

  /** Loop state: progress along x and y, and the error term. */
  datatype State = State(nx: int, ny: int, err: int)

  /** `2 * (ny*dx - nx*dy)`: twice the scaled distance of the cell from the ideal line. */
  function Deviation(dx: int, dy: int, s: State): int
  {
    s.ny * dx - s.nx * dy
  }

  /** What holds of every state the loop reaches. */
  ghost predicate Reachable(dx: int, dy: int, s: State)
  {
    0 <= dx && 0 <= dy &&
    0 <= s.nx <= dx && 0 <= s.ny <= dy &&
    s.err == dx - dy + Deviation(dx, dy, s) &&
    -Max(dx, dy) <= 2 * Deviation(dx, dy, s) <= Max(dx, dy)
  }

  /** One pass of the loop body after the end test: `e2 = 2*err`, then the x step,
      then the y step, both decided on the same `e2`. */
  function Next(dx: int, dy: int, s: State): State
  {
    var e2 := 2 * s.err;
    var afterX := if e2 > -dy then State(s.nx + 1, s.ny, s.err - dy) else s;
    if e2 < dx then State(afterX.nx, afterX.ny + 1, afterX.err + dx) else afterX
  }

  lemma MulBound(a: int, b: int)
    requires 0 <= a
    ensures b >= 1 ==> a * b >= a
    ensures b <= -1 ==> a * b <= -a
  {
    if b >= 1 {
      assert a * b == a + a * (b - 1);
    } else if b <= -1 {
      assert a * b == -a + a * (b + 1);
    }
  }

  /** Moving by `a` in x and `b` in y changes the deviation by `b*dx - a*dy`. */
  lemma DeviationMoves(dx: int, dy: int, s: State, a: int, b: int)
    requires a in {0, 1} && b in {0, 1}
    ensures Deviation(dx, dy, State(s.nx + a, s.ny + b, s.err)) == Deviation(dx, dy, s) + b * dx - a * dy
  {
    assert (s.nx + a) * dy == s.nx * dy + a * dy;
    assert (s.ny + b) * dx == s.ny * dx + b * dx;
  }

  /** A step from a state that is not the end keeps the state reachable, moves each
      coordinate by 0 or 1 and moves at least one of them. */
  lemma NextReachable(dx: int, dy: int, s: State)
    requires Reachable(dx, dy, s) && !(s.nx == dx && s.ny == dy)
    ensures Reachable(dx, dy, Next(dx, dy, s))
    ensures Next(dx, dy, s).nx - s.nx in {0, 1} && Next(dx, dy, s).ny - s.ny in {0, 1}
    ensures Next(dx, dy, s).nx + Next(dx, dy, s).ny > s.nx + s.ny
  {
    var e2 := 2 * s.err;
    var a := if e2 > -dy then 1 else 0;
    var b := if e2 < dx then 1 else 0;
    var t := Next(dx, dy, s);
    assert t == State(s.nx + a, s.ny + b, s.err - a * dy + b * dx);
    DeviationMoves(dx, dy, s, a, b);
    assert Deviation(dx, dy, t) == Deviation(dx, dy, s) + b * dx - a * dy;
    if s.nx == dx {
      // at the end column the deviation is dx*(ny - dy) <= -dx, so x cannot move
      NoStepPastEnd(dx, dy, s);
    }
    if s.ny == dy {
      NoStepPastEnd(dx, dy, s);
    }
  }

  lemma NoStepPastEnd(dx: int, dy: int, s: State)
    requires Reachable(dx, dy, s) && !(s.nx == dx && s.ny == dy)
    ensures s.nx == dx ==> Deviation(dx, dy, s) <= -dx
    ensures s.ny == dy ==> Deviation(dx, dy, s) >= dy
  {
    if s.nx == dx {
      assert Deviation(dx, dy, s) == dx * (s.ny - dy);
      MulBound(dx, s.ny - dy);
    }
    if s.ny == dy {
      assert Deviation(dx, dy, s) == dy * (dx - s.nx);
      MulBound(dy, dx - s.nx);
    }
  }

  /** The cell the loop is at in state `s`. */
  function CellOf(x0: int, y0: int, x1: int, y1: int, s: State): Cell
  {
    Cell(Offset(x0, Dir(x0, x1), s.nx), Offset(y0, Dir(y0, y1), s.ny))
  }

  /** The cells the loop appends from state `s` on, up to and including the one at
      which `x == x1 and y == y1` breaks the loop. */
  function LineFrom(x0: int, y0: int, x1: int, y1: int, s: State): seq<Cell>
    requires Reachable(Abs(x1 - x0), Abs(y1 - y0), s)
    decreases Abs(x1 - x0) - s.nx + Abs(y1 - y0) - s.ny
  {
    var c := CellOf(x0, y0, x1, y1, s);
    if c.x == x1 && c.y == y1 then [c]
    else
      NextReachable(Abs(x1 - x0), Abs(y1 - y0), s);
      [c] + LineFrom(x0, y0, x1, y1, Next(Abs(x1 - x0), Abs(y1 - y0), s))
  }

  function Start(x0: int, y0: int, x1: int, y1: int): State
  {
    State(0, 0, Abs(x1 - x0) - Abs(y1 - y0))
  }

  /** The line from `(x0, y0)` to `(x1, y1)`. */
  function Line(x0: int, y0: int, x1: int, y1: int): seq<Cell>
  {
    LineFrom(x0, y0, x1, y1, Start(x0, y0, x1, y1))
  }

  /** One unfolding of `LineFrom`: the end cell alone, or the current cell followed by
      the line from the next state. */
  lemma LineFromUnfold(x0: int, y0: int, x1: int, y1: int, s: State)
    requires Reachable(Abs(x1 - x0), Abs(y1 - y0), s)
    ensures CellOf(x0, y0, x1, y1, s) == Cell(x1, y1) ==>
      LineFrom(x0, y0, x1, y1, s) == [CellOf(x0, y0, x1, y1, s)]
    ensures CellOf(x0, y0, x1, y1, s) != Cell(x1, y1) ==>
      Reachable(Abs(x1 - x0), Abs(y1 - y0), Next(Abs(x1 - x0), Abs(y1 - y0), s)) &&
      LineFrom(x0, y0, x1, y1, s) ==
        [CellOf(x0, y0, x1, y1, s)] + LineFrom(x0, y0, x1, y1, Next(Abs(x1 - x0), Abs(y1 - y0), s))
  {
    if CellOf(x0, y0, x1, y1, s) != Cell(x1, y1) {
      AtEndIff(x0, y0, x1, y1, s);
      NextReachable(Abs(x1 - x0), Abs(y1 - y0), s);
    }
  }

  /** The loop body's effect on `x`, `y` and `err`, read off the next state. */
  lemma NextCell(x0: int, y0: int, x1: int, y1: int, s: State)
    ensures var dx: int, dy: int, e2 := Abs(x1 - x0), Abs(y1 - y0), 2 * s.err;
      var c, t := CellOf(x0, y0, x1, y1, s), Next(Abs(x1 - x0), Abs(y1 - y0), s);
      CellOf(x0, y0, x1, y1, t).x == (if e2 > -dy then c.x + Dir(x0, x1) else c.x) &&
      CellOf(x0, y0, x1, y1, t).y == (if e2 < dx then c.y + Dir(y0, y1) else c.y) &&
      t.err == (if e2 > -dy then s.err - dy else s.err) + (if e2 < dx then dx else 0)
  {
  }

  /** One pass of the loop body from a state that is not the end: the next state is
      reachable and closer to the end, the cell `(x, y)` moves to the appended cells,
      and the updated `x2`, `y2`, `err2` are the cell and error term of the next state. */
  lemma Advance(x0: int, y0: int, x1: int, y1: int, dx: int, dy: int, s: State, points: seq<Cell>, whole: seq<Cell>,
                x: int, y: int, err: int, x2: int, y2: int, err2: int)
    requires dx == Abs(x1 - x0) && dy == Abs(y1 - y0) && Reachable(dx, dy, s)
    requires Cell(x, y) == CellOf(x0, y0, x1, y1, s) && err == s.err && Cell(x, y) != Cell(x1, y1)
    requires points + LineFrom(x0, y0, x1, y1, s) == whole
    requires x2 == (if 2 * err > -dy then x + Dir(x0, x1) else x)
    requires y2 == (if 2 * err < dx then y + Dir(y0, y1) else y)
    requires err2 == (if 2 * err > -dy then err - dy else err) + (if 2 * err < dx then dx else 0)
    ensures Reachable(dx, dy, Next(dx, dy, s))
    ensures Next(dx, dy, s).nx + Next(dx, dy, s).ny > s.nx + s.ny
    ensures (points + [Cell(x, y)]) + LineFrom(x0, y0, x1, y1, Next(dx, dy, s)) == whole
    ensures Cell(x2, y2) == CellOf(x0, y0, x1, y1, Next(dx, dy, s)) && err2 == Next(dx, dy, s).err
  {
    LineFromUnfold(x0, y0, x1, y1, s);
    AtEndIff(x0, y0, x1, y1, s);
    NextReachable(dx, dy, s);
    NextCell(x0, y0, x1, y1, s);
    Reassociate(points, Cell(x, y), LineFrom(x0, y0, x1, y1, Next(dx, dy, s)));
  }

  lemma Reassociate(done: seq<Cell>, c: Cell, rest: seq<Cell>)
    ensures done + ([c] + rest) == (done + [c]) + rest
  {
  }

  /** `_bresenham_line`. */
  method BresenhamLine(x0: int, y0: int, x1: int, y1: int) returns (points: seq<Cell>)
    ensures points == Line(x0, y0, x1, y1)
  {
    points := [];
    var dx: int := Abs(x1 - x0);
    var dy: int := Abs(y1 - y0);
    var sx := if x0 < x1 then 1 else -1;
    var sy := if y0 < y1 then 1 else -1;
    var err: int := dx - dy;
    var x, y := x0, y0;
    ghost var s := Start(x0, y0, x1, y1);
    ghost var whole := Line(x0, y0, x1, y1);
    assert points + whole == whole;
    while true
      invariant Reachable(dx, dy, s)
      invariant Cell(x, y) == CellOf(x0, y0, x1, y1, s) && err == s.err
      invariant points + LineFrom(x0, y0, x1, y1, s) == whole
      decreases dx - s.nx + dy - s.ny
    {
      if x == x1 && y == y1 {
        LineFromUnfold(x0, y0, x1, y1, s);
        points := points + [Cell(x, y)];
        break;
      }
      ghost var before, px, py, perr := points, x, y, err;
      points := points + [Cell(x, y)];
      var e2 := 2 * err;
      if e2 > -dy {
        err := err - dy;
        x := x + sx;
      }
      if e2 < dx {
        err := err + dx;
        y := y + sy;
      }
      Advance(x0, y0, x1, y1, dx, dy, s, before, whole, px, py, perr, x, y, err);
      s := Next(dx, dy, s);
    }
  }

  lemma StartReachable(x0: int, y0: int, x1: int, y1: int)
    ensures Reachable(Abs(x1 - x0), Abs(y1 - y0), Start(x0, y0, x1, y1))
  {
  }

  /** The cell of a reachable state is the end cell exactly when both progresses are complete. */
  lemma AtEndIff(x0: int, y0: int, x1: int, y1: int, s: State)
    requires Reachable(Abs(x1 - x0), Abs(y1 - y0), s)
    ensures CellOf(x0, y0, x1, y1, s) == Cell(x1, y1) <==> s.nx == Abs(x1 - x0) && s.ny == Abs(y1 - y0)
  {
  }

  /** The last cell of the line is `(x1, y1)`. */
  lemma {:induction false} LineFromEnds(x0: int, y0: int, x1: int, y1: int, s: State)
    requires Reachable(Abs(x1 - x0), Abs(y1 - y0), s)
    ensures |LineFrom(x0, y0, x1, y1, s)| >= 1
    ensures LineFrom(x0, y0, x1, y1, s)[0] == CellOf(x0, y0, x1, y1, s)
    ensures LineFrom(x0, y0, x1, y1, s)[|LineFrom(x0, y0, x1, y1, s)| - 1] == Cell(x1, y1)
    decreases Abs(x1 - x0) - s.nx + Abs(y1 - y0) - s.ny
  {
    var c := CellOf(x0, y0, x1, y1, s);
    if !(c.x == x1 && c.y == y1) {
      NextReachable(Abs(x1 - x0), Abs(y1 - y0), s);
      LineFromEnds(x0, y0, x1, y1, Next(Abs(x1 - x0), Abs(y1 - y0), s));
    }
  }

  /** Along the longer axis the loop advances on every pass. */
  lemma MajorAxisAdvances(dx: int, dy: int, s: State)
    requires Reachable(dx, dy, s) && !(s.nx == dx && s.ny == dy)
    ensures dx >= dy ==> Next(dx, dy, s).nx == s.nx + 1
    ensures dy > dx ==> Next(dx, dy, s).ny == s.ny + 1
  {
    if dx == dy {
      assert Deviation(dx, dy, s) == dx * (s.ny - s.nx);
      MulBound(dx, s.ny - s.nx);
    }
  }

  /** Counting cells along the longer axis. */
  lemma {:induction false} LineFromLength(x0: int, y0: int, x1: int, y1: int, s: State)
    requires Reachable(Abs(x1 - x0), Abs(y1 - y0), s)
    ensures Abs(x1 - x0) >= Abs(y1 - y0) ==> |LineFrom(x0, y0, x1, y1, s)| == Abs(x1 - x0) - s.nx + 1
    ensures Abs(y1 - y0) > Abs(x1 - x0) ==> |LineFrom(x0, y0, x1, y1, s)| == Abs(y1 - y0) - s.ny + 1
    decreases Abs(x1 - x0) - s.nx + Abs(y1 - y0) - s.ny
  {
    var dx, dy := Abs(x1 - x0), Abs(y1 - y0);
    AtEndIff(x0, y0, x1, y1, s);
    if !(s.nx == dx && s.ny == dy) {
      NextReachable(dx, dy, s);
      MajorAxisAdvances(dx, dy, s);
      LineFromLength(x0, y0, x1, y1, Next(dx, dy, s));
    }
  }

  /** The line has `max(|dx|, |dy|) + 1` cells, starts at `(x0, y0)` and ends at `(x1, y1)`. */
  lemma LineShape(x0: int, y0: int, x1: int, y1: int)
    ensures |Line(x0, y0, x1, y1)| == Max(Abs(x1 - x0), Abs(y1 - y0)) + 1
    ensures Line(x0, y0, x1, y1)[0] == Cell(x0, y0)
    ensures Line(x0, y0, x1, y1)[|Line(x0, y0, x1, y1)| - 1] == Cell(x1, y1)
  {
    StartReachable(x0, y0, x1, y1);
    LineFromEnds(x0, y0, x1, y1, Start(x0, y0, x1, y1));
    LineFromLength(x0, y0, x1, y1, Start(x0, y0, x1, y1));
  }

  /** Consecutive cells differ by `sx` or 0 in x and by `sy` or 0 in y, never by 0 in both. */
  ghost predicate UnitSteps(cells: seq<Cell>, sx: int, sy: int)
  {
    forall i :: 0 <= i < |cells| - 1 ==>
      (cells[i + 1].x == cells[i].x || cells[i + 1].x == cells[i].x + sx) &&
      (cells[i + 1].y == cells[i].y || cells[i + 1].y == cells[i].y + sy) &&
      cells[i + 1] != cells[i]
  }

  /** Every cell lies between the end points on both axes: no overshoot. */
  ghost predicate WithinBox(cells: seq<Cell>, x0: int, y0: int, x1: int, y1: int)
  {
    forall i :: 0 <= i < |cells| ==>
      (x0 <= cells[i].x <= x1 || x1 <= cells[i].x <= x0) &&
      (y0 <= cells[i].y <= y1 || y1 <= cells[i].y <= y0)
  }

  ghost predicate Distinct(cells: seq<Cell>)
  {
    forall i, j :: 0 <= i < j < |cells| ==> cells[i] != cells[j]
  }

  /** How far a cell is from the start, counted in steps along each axis. */
  function Travelled(x0: int, y0: int, c: Cell): nat
  {
    Abs(c.x - x0) + Abs(c.y - y0)
  }

  /** Unit steps extend to the front when the first step is a unit step. */
  lemma UnitStepsCons(c: Cell, rest: seq<Cell>, sx: int, sy: int)
    requires UnitSteps(rest, sx, sy) && |rest| > 0
    requires (rest[0].x == c.x || rest[0].x == c.x + sx) && (rest[0].y == c.y || rest[0].y == c.y + sy)
    requires rest[0] != c
    ensures UnitSteps([c] + rest, sx, sy)
  {
    var line := [c] + rest;
    forall i | 0 <= i < |line| - 1
      ensures (line[i + 1].x == line[i].x || line[i + 1].x == line[i].x + sx) &&
              (line[i + 1].y == line[i].y || line[i + 1].y == line[i].y + sy) &&
              line[i + 1] != line[i]
    {
      if i > 0 {
        assert line[i] == rest[i - 1] && line[i + 1] == rest[i];
      }
    }
  }

  lemma {:induction false} LineFromUnitSteps(x0: int, y0: int, x1: int, y1: int, s: State)
    requires Reachable(Abs(x1 - x0), Abs(y1 - y0), s)
    ensures UnitSteps(LineFrom(x0, y0, x1, y1, s), Dir(x0, x1), Dir(y0, y1))
    decreases Abs(x1 - x0) - s.nx + Abs(y1 - y0) - s.ny
  {
    var c := CellOf(x0, y0, x1, y1, s);
    LineFromUnfold(x0, y0, x1, y1, s);
    if c != Cell(x1, y1) {
      NextReachable(Abs(x1 - x0), Abs(y1 - y0), s);
      var t := Next(Abs(x1 - x0), Abs(y1 - y0), s);
      LineFromUnitSteps(x0, y0, x1, y1, t);
      LineFromEnds(x0, y0, x1, y1, t);
      NextCell(x0, y0, x1, y1, s);
      UnitStepsCons(c, LineFrom(x0, y0, x1, y1, t), Dir(x0, x1), Dir(y0, y1));
    }
  }

  lemma {:induction false} LineFromWithinBox(x0: int, y0: int, x1: int, y1: int, s: State)
    requires Reachable(Abs(x1 - x0), Abs(y1 - y0), s)
    ensures WithinBox(LineFrom(x0, y0, x1, y1, s), x0, y0, x1, y1)
    decreases Abs(x1 - x0) - s.nx + Abs(y1 - y0) - s.ny
  {
    var c := CellOf(x0, y0, x1, y1, s);
    var line := LineFrom(x0, y0, x1, y1, s);
    LineFromUnfold(x0, y0, x1, y1, s);
    if c != Cell(x1, y1) {
      NextReachable(Abs(x1 - x0), Abs(y1 - y0), s);
      var t := Next(Abs(x1 - x0), Abs(y1 - y0), s);
      var rest := LineFrom(x0, y0, x1, y1, t);
      LineFromWithinBox(x0, y0, x1, y1, t);
      forall i | 0 <= i < |line|
        ensures (x0 <= line[i].x <= x1 || x1 <= line[i].x <= x0) &&
                (y0 <= line[i].y <= y1 || y1 <= line[i].y <= y0)
      {
        if i > 0 {
          assert line[i] == rest[i - 1];
        }
      }
    }
  }

  /** The `i`-th cell has travelled at least `k + i` steps from the start. */
  ghost predicate Ahead(cells: seq<Cell>, x0: int, y0: int, k: int)
  {
    forall i :: 0 <= i < |cells| ==> Travelled(x0, y0, cells[i]) >= k + i
  }

  lemma AheadCons(c: Cell, rest: seq<Cell>, x0: int, y0: int, k: int)
    requires Travelled(x0, y0, c) == k
    requires Ahead(rest, x0, y0, k + 1) && Distinct(rest)
    ensures Ahead([c] + rest, x0, y0, k) && Distinct([c] + rest)
  {
    var line := [c] + rest;
    forall i | 0 <= i < |line|
      ensures Travelled(x0, y0, line[i]) >= k + i
    {
      if i > 0 {
        assert line[i] == rest[i - 1];
      }
    }
    forall i, j | 0 <= i < j < |line|
      ensures line[i] != line[j]
    {
      assert line[j] == rest[j - 1];
      if i > 0 {
        assert line[i] == rest[i - 1];
      }
    }
  }

  /** Every later cell has travelled further from the start, so no cell repeats. */
  lemma {:induction false} LineFromDistinct(x0: int, y0: int, x1: int, y1: int, s: State)
    requires Reachable(Abs(x1 - x0), Abs(y1 - y0), s)
    ensures Ahead(LineFrom(x0, y0, x1, y1, s), x0, y0, s.nx + s.ny)
    ensures Distinct(LineFrom(x0, y0, x1, y1, s))
    decreases Abs(x1 - x0) - s.nx + Abs(y1 - y0) - s.ny
  {
    var c := CellOf(x0, y0, x1, y1, s);
    LineFromUnfold(x0, y0, x1, y1, s);
    assert Travelled(x0, y0, c) == s.nx + s.ny;
    if c != Cell(x1, y1) {
      NextReachable(Abs(x1 - x0), Abs(y1 - y0), s);
      var t := Next(Abs(x1 - x0), Abs(y1 - y0), s);
      LineFromDistinct(x0, y0, x1, y1, t);
      AheadCons(c, LineFrom(x0, y0, x1, y1, t), x0, y0, s.nx + s.ny);
    }
  }

  /** Every step moves each coordinate toward its end point by 0 or 1 and never leaves
      the cell unchanged; no cell lies beyond an end point and no cell repeats. */
  lemma LineSteps(x0: int, y0: int, x1: int, y1: int)
    ensures UnitSteps(Line(x0, y0, x1, y1), Dir(x0, x1), Dir(y0, y1))
    ensures WithinBox(Line(x0, y0, x1, y1), x0, y0, x1, y1)
    ensures Distinct(Line(x0, y0, x1, y1))
  {
    StartReachable(x0, y0, x1, y1);
    LineFromUnitSteps(x0, y0, x1, y1, Start(x0, y0, x1, y1));
    LineFromWithinBox(x0, y0, x1, y1, Start(x0, y0, x1, y1));
    LineFromDistinct(x0, y0, x1, y1, Start(x0, y0, x1, y1));
  }

  /** `count` cells starting at `(x, y)`, each one step right of the previous and
      `dy` (0 or 1) steps up. */
  function Run(x: int, y: int, dy: int, count: nat): seq<Cell>
    decreases count
  {
    if count == 0 then [] else [Cell(x, y)] + Run(x + 1, y + dy, dy, count - 1)
  }

  /** A horizontal line to the right, from state `n` on, is the row of remaining cells. */
  lemma {:induction false} HorizontalLineFrom(x0: int, y0: int, x1: int, n: int)
    requires x0 < x1 && 0 <= n <= x1 - x0
    ensures Reachable(x1 - x0, 0, State(n, 0, x1 - x0))
    ensures LineFrom(x0, y0, x1, y0, State(n, 0, x1 - x0)) == Run(x0 + n, y0, 0, x1 - x0 - n + 1)
    decreases x1 - x0 - n
  {
    var s := State(n, 0, x1 - x0);
    LineFromUnfold(x0, y0, x1, y0, s);
    if n < x1 - x0 {
      assert Next(x1 - x0, 0, s) == State(n + 1, 0, x1 - x0);
      HorizontalLineFrom(x0, y0, x1, n + 1);
    } else {
      assert Run(x0 + n + 1, y0, 0, 0) == [];
    }
  }

  /** A 45-degree line up and to the right, from state `n` on, is the remaining diagonal. */
  lemma {:induction false} DiagonalLineFrom(x0: int, y0: int, x1: int, y1: int, n: int)
    requires x0 < x1 && y1 - y0 == x1 - x0 && 0 <= n <= x1 - x0
    ensures Reachable(x1 - x0, y1 - y0, State(n, n, 0))
    ensures LineFrom(x0, y0, x1, y1, State(n, n, 0)) == Run(x0 + n, y0 + n, 1, x1 - x0 - n + 1)
    decreases x1 - x0 - n
  {
    var s := State(n, n, 0);
    var d := x1 - x0;
    assert Deviation(d, d, s) == 0;
    LineFromUnfold(x0, y0, x1, y1, s);
    if n < d {
      assert Next(d, d, s) == State(n + 1, n + 1, 0);
      DiagonalLineFrom(x0, y0, x1, y1, n + 1);
    } else {
      assert Run(x0 + n + 1, y0 + n + 1, 1, 0) == [];
    }
  }

  lemma HorizontalStart(x0: int, y0: int, x1: int)
    requires x0 < x1
    ensures Line(x0, y0, x1, y0) == LineFrom(x0, y0, x1, y0, State(0, 0, x1 - x0))
  {
    assert Start(x0, y0, x1, y0) == State(0, 0, x1 - x0);
  }

  lemma DiagonalStart(x0: int, y0: int, x1: int, y1: int)
    requires x0 < x1 && y1 - y0 == x1 - x0
    ensures Line(x0, y0, x1, y1) == LineFrom(x0, y0, x1, y1, State(0, 0, 0))
  {
    assert Start(x0, y0, x1, y1) == State(0, 0, 0);
  }

  /** A horizontal line to the right is the row of cells from `x0` to `x1`. */
  lemma HorizontalLine(x0: int, y0: int, x1: int)
    requires x0 < x1
    ensures Line(x0, y0, x1, y0) == Run(x0, y0, 0, x1 - x0 + 1)
  {
    HorizontalStart(x0, y0, x1);
    HorizontalLineFrom(x0, y0, x1, 0);
  }

  /** A 45-degree line up and to the right is the diagonal run of cells. */
  lemma DiagonalLine(x0: int, y0: int, x1: int, y1: int)
    requires x0 < x1 && y1 - y0 == x1 - x0
    ensures Line(x0, y0, x1, y1) == Run(x0, y0, 1, x1 - x0 + 1)
  {
    DiagonalStart(x0, y0, x1, y1);
    DiagonalLineFrom(x0, y0, x1, y1, 0);
  }

  /** (0,0) to (5,0): six cells along the x axis. */
  lemma StraightLineExample()
    ensures Line(0, 0, 5, 0) == [Cell(0, 0), Cell(1, 0), Cell(2, 0), Cell(3, 0), Cell(4, 0), Cell(5, 0)]
  {
    HorizontalLine(0, 0, 5);
  }

  /** (0,0) to (3,3): the four diagonal cells. */
  lemma DiagonalLineExample()
    ensures Line(0, 0, 3, 3) == [Cell(0, 0), Cell(1, 1), Cell(2, 2), Cell(3, 3)]
  {
    DiagonalLine(0, 0, 3, 3);
  }
}
