/** The movement shared by sand and water: the step-by-step walk toward
    the velocity target and the probe of shuffled neighbouring cells.
    Both are specified by pure functions over the grid as it was when the
    phase started. */
module Motion {
  import opened Grid

  /** The test both rules make before every step: column in range, row
      not past the bottom, cell empty. There is no test against row 0;
      every caller only ever probes rows at or below 0. */
  predicate StepOpen(g: seq<Particle?>, w: int, h: int, x: int, y: int)
    requires 0 < w && 0 < h && |g| == w * h && 0 <= y
  {
    0 <= x < w && y < h && (IdxInRange(w, h, x, y); g[Idx(w, x, y)] == null)
  }

  /** An open cell is an in-bounds cell whose slot is empty. */
  lemma StepOpenCell(g: seq<Particle?>, w: int, h: int, x: int, y: int)
    requires 0 < w && 0 < h && |g| == w * h && 0 <= y && StepOpen(g, w, h, x, y)
    ensures InBounds(w, h, x, y) && 0 <= Idx(w, x, y) < |g| && g[Idx(w, x, y)] == null
  {
    IdxInRange(w, h, x, y);
  }

  /** Each step of the walk brings it exactly one step nearer its target. */
  lemma ChebStep(x: int, y: int, tx: int, ty: int)
    requires x != tx || y != ty
    ensures Cheb(x + Sign(tx - x), y + Sign(ty - y), tx, ty) == Cheb(x, y, tx, ty) - 1
  {
  }

  /** Where the walk stopped, whether a blocked step stopped it, and how
      many loop iterations it took. */
  datatype WalkEnd = WalkEnd(x: int, y: int, blocked: bool, iterations: nat)

  /** The walk from (x, y) toward (tx, ty) over grid `g`: each iteration
      moves one step along each axis that has not yet reached its target;
      the first step into a closed cell ends the walk where it stands. */
  function Walk(g: seq<Particle?>, w: int, h: int, x: int, y: int, tx: int, ty: int): (r: WalkEnd)
    requires 0 < w && 0 < h && |g| == w * h && 0 <= y && 0 <= ty
    decreases Cheb(x, y, tx, ty)
  {
    if x == tx && y == ty then
      WalkEnd(x, y, false, 0)
    else
      var nx, ny := x + Sign(tx - x), y + Sign(ty - y);
      ChebStep(x, y, tx, ty);
      if StepOpen(g, w, h, nx, ny) then
        var r := Walk(g, w, h, nx, ny, tx, ty);
        WalkEnd(r.x, r.y, r.blocked, r.iterations + 1)
      else
        WalkEnd(x, y, true, 1)
  }

  /** The walk ends on the segment toward its target, reaches the target
      exactly when no step was blocked, and runs at most as many iterations
      as the Chebyshev distance to the target: exactly that many when it
      is not blocked. */
  lemma {:induction false} WalkBounded(g: seq<Particle?>, w: int, h: int, x: int, y: int, tx: int, ty: int)
    requires 0 < w && 0 < h && |g| == w * h && 0 <= y && 0 <= ty
    ensures var r := Walk(g, w, h, x, y, tx, ty);
      && r.iterations <= Cheb(x, y, tx, ty)
      && (!r.blocked <==> (r.x == tx && r.y == ty))
      && (!r.blocked ==> r.iterations == Cheb(x, y, tx, ty))
      && Between(x, r.x, tx) && Between(y, r.y, ty)
    decreases Cheb(x, y, tx, ty)
  {
    if x != tx || y != ty {
      var nx, ny := x + Sign(tx - x), y + Sign(ty - y);
      ChebStep(x, y, tx, ty);
      if StepOpen(g, w, h, nx, ny) {
        WalkBounded(g, w, h, nx, ny, tx, ty);
      }
    }
  }

  /** The particle only ever comes to rest on its starting cell or on a
      cell that was empty, and a blocked walk stopped because its next step
      was out of range or occupied. */
  lemma {:induction false} WalkStopsOnOpenCell(g: seq<Particle?>, w: int, h: int, x: int, y: int, tx: int, ty: int)
    requires 0 < w && 0 < h && |g| == w * h && 0 <= y && 0 <= ty
    ensures var r := Walk(g, w, h, x, y, tx, ty);
      && 0 <= r.y
      && ((r.x == x && r.y == y) || StepOpen(g, w, h, r.x, r.y))
      && (r.blocked ==> 0 <= r.y + Sign(ty - r.y) && !StepOpen(g, w, h, r.x + Sign(tx - r.x), r.y + Sign(ty - r.y)))
    decreases Cheb(x, y, tx, ty)
  {
    if x != tx || y != ty {
      var nx, ny := x + Sign(tx - x), y + Sign(ty - y);
      ChebStep(x, y, tx, ty);
      if StepOpen(g, w, h, nx, ny) {
        WalkStopsOnOpenCell(g, w, h, nx, ny, tx, ty);
      }
    }
  }

  /** The cell the walk from (x, y) toward (tx, ty) reaches after `k`
      steps when none of them is blocked; it stays on the segment. */
  function Along(x: int, y: int, tx: int, ty: int, k: nat): (c: (int, int))
    ensures Between(x, c.0, tx) && Between(y, c.1, ty)
    decreases k
  {
    if k == 0 || (x == tx && y == ty) then (x, y)
    else Along(x + Sign(tx - x), y + Sign(ty - y), tx, ty, k - 1)
  }

  /** The walk's trace: it ends on the cell reached after its `m` open
      steps (one fewer than its iterations when blocked), every one of the
      cells those steps entered was open, and a blocked walk's next step
      was closed. So a walk never passes an occupied cell. */
  lemma {:induction false} WalkTrace(g: seq<Particle?>, w: int, h: int, x: int, y: int, tx: int, ty: int)
    requires 0 < w && 0 < h && |g| == w * h && 0 <= y && 0 <= ty
    ensures var r := Walk(g, w, h, x, y, tx, ty);
      var m := if r.blocked then r.iterations - 1 else r.iterations;
      && 0 <= m
      && (r.x, r.y) == Along(x, y, tx, ty, m)
      && (forall k {:trigger Along(x, y, tx, ty, k)} :: 1 <= k <= m ==>
            StepOpen(g, w, h, Along(x, y, tx, ty, k).0, Along(x, y, tx, ty, k).1))
      && (r.blocked ==> !StepOpen(g, w, h, Along(x, y, tx, ty, m + 1).0, Along(x, y, tx, ty, m + 1).1))
    decreases Cheb(x, y, tx, ty)
  {
    if x != tx || y != ty {
      var nx, ny := x + Sign(tx - x), y + Sign(ty - y);
      ChebStep(x, y, tx, ty);
      assert Along(x, y, tx, ty, 1) == (nx, ny);
      if StepOpen(g, w, h, nx, ny) {
        WalkTrace(g, w, h, nx, ny, tx, ty);
        var r := Walk(g, w, h, nx, ny, tx, ty);
        var m := if r.blocked then r.iterations - 1 else r.iterations;
        forall k | 1 <= k <= m + 2
          ensures Along(x, y, tx, ty, k) == Along(nx, ny, tx, ty, k - 1)
        {
        }
      }
    }
  }

  /** The index into `dirs` of the first direction whose cell in `row` is
      open, if any: the `for ... break` over the shuffled array. */
  function FirstOpen(g: seq<Particle?>, w: int, h: int, x: int, row: int, dirs: seq<int>): (r: Option<nat>)
    requires 0 < w && 0 < h && |g| == w * h && 0 <= row
    ensures r.Some? ==> r.value < |dirs|
  {
    if dirs == [] then None
    else if StepOpen(g, w, h, x + dirs[0], row) then Some(0)
    else
      match FirstOpen(g, w, h, x, row, dirs[1..])
      case None => None
      case Some(k) => Some(k + 1)
  }

  /** `FirstOpen` finds the open direction of least index, and finds none
      exactly when every direction is closed. */
  lemma {:induction false} FirstOpenSpec(g: seq<Particle?>, w: int, h: int, x: int, row: int, dirs: seq<int>)
    requires 0 < w && 0 < h && |g| == w * h && 0 <= row
    ensures var r := FirstOpen(g, w, h, x, row, dirs);
      && (r.Some? ==> r.value < |dirs| && StepOpen(g, w, h, x + dirs[r.value], row))
      && (r.Some? ==> forall j :: 0 <= j < r.value ==> !StepOpen(g, w, h, x + dirs[j], row))
      && (r.None? <==> forall j :: 0 <= j < |dirs| ==> !StepOpen(g, w, h, x + dirs[j], row))
  {
    if dirs != [] && !StepOpen(g, w, h, x + dirs[0], row) {
      FirstOpenSpec(g, w, h, x, row, dirs[1..]);
      assert forall j :: 1 <= j < |dirs| ==> dirs[j] == dirs[1..][j - 1];
    }
  }

  /** For the shuffled directions {-1, 0, 1}: the first open direction is
      one of the three cells of the row, and there is none exactly when all
      three are closed. */
  lemma FirstOpenOfThree(g: seq<Particle?>, w: int, h: int, x: int, row: int, dirs: seq<int>)
    requires 0 < w && 0 < h && |g| == w * h && 0 <= row
    requires multiset(dirs) == multiset{-1, 0, 1}
    ensures var r := FirstOpen(g, w, h, x, row, dirs);
      && (r.Some? ==> r.value < |dirs| && -1 <= dirs[r.value] <= 1 && StepOpen(g, w, h, x + dirs[r.value], row))
      && (r.None? <==> !StepOpen(g, w, h, x - 1, row) && !StepOpen(g, w, h, x, row) && !StepOpen(g, w, h, x + 1, row))
  {
    FirstOpenSpec(g, w, h, x, row, dirs);
    assert forall j :: 0 <= j < |dirs| ==> -1 <= dirs[j] <= 1 by {
      forall j | 0 <= j < |dirs| ensures -1 <= dirs[j] <= 1 {
        assert dirs[j] in multiset(dirs);
      }
    }
    assert -1 in multiset(dirs) && 0 in multiset(dirs) && 1 in multiset(dirs);
  }

  /** The index of the first open direction in the order given. */
  lemma FirstOpenIs(g: seq<Particle?>, w: int, h: int, x: int, row: int, dirs: seq<int>, i: nat)
    requires 0 < w && 0 < h && |g| == w * h && 0 <= row
    requires i < |dirs| && StepOpen(g, w, h, x + dirs[i], row)
    requires forall j :: 0 <= j < i ==> !StepOpen(g, w, h, x + dirs[j], row)
    ensures FirstOpen(g, w, h, x, row, dirs) == Some(i)
  {
    FirstOpenSpec(g, w, h, x, row, dirs);
  }

  /** A step from a cell on the segment between the start and the target
      stays on the segment, leaves both the current and the starting cell
      and brings the walk nearer the target. */
  lemma StepAlongSegment(x0: int, y0: int, x: int, y: int, tx: int, ty: int)
    requires Between(x0, x, tx) && Between(y0, y, ty) && (x != tx || y != ty)
    ensures var nx, ny := x + Sign(tx - x), y + Sign(ty - y);
      && Between(x0, nx, tx) && Between(y0, ny, ty)
      && (nx, ny) != (x, y) && (nx, ny) != (x0, y0)
      && Cheb(nx, ny, tx, ty) < Cheb(x, y, tx, ty)
  {
    ChebStep(x, y, tx, ty);
  }

  /** One unfolding of the walk: an open first step leaves the rest of the
      walk to decide the outcome; a closed one ends it on the spot. */
  lemma WalkUnfold(g: seq<Particle?>, w: int, h: int, x: int, y: int, tx: int, ty: int)
    requires 0 < w && 0 < h && |g| == w * h && 0 <= y && 0 <= ty
    requires x != tx || y != ty
    requires 0 <= y + Sign(ty - y)
    ensures var nx, ny := x + Sign(tx - x), y + Sign(ty - y);
      if StepOpen(g, w, h, nx, ny) then
        var rest := Walk(g, w, h, nx, ny, tx, ty);
        Walk(g, w, h, x, y, tx, ty) == WalkEnd(rest.x, rest.y, rest.blocked, rest.iterations + 1)
      else
        Walk(g, w, h, x, y, tx, ty) == WalkEnd(x, y, true, 1)
  {
  }

  /** Moving `p` from `s` to `c` does not change whether any third cell is open. */
  lemma ShiftKeepsOpen(g: seq<Particle?>, w: int, h: int, x0: int, y0: int, cx: int, cy: int,
                       p: Particle, x: int, y: int)
    requires 0 < w && 0 < h && |g| == w * h && 0 <= y
    requires InBounds(w, h, x0, y0) && InBounds(w, h, cx, cy)
    requires 0 <= Idx(w, x0, y0) < |g| && 0 <= Idx(w, cx, cy) < |g|
    requires (x, y) != (x0, y0) && (x, y) != (cx, cy)
    ensures StepOpen(Shift(g, Idx(w, x0, y0), Idx(w, cx, cy), p), w, h, x, y) == StepOpen(g, w, h, x, y)
  {
    if InBounds(w, h, x, y) {
      IdxInRange(w, h, x, y);
      if Idx(w, x, y) == Idx(w, cx, cy) { IdxInjective(w, h, x, y, cx, cy); }
      if Idx(w, x, y) == Idx(w, x0, y0) { IdxInjective(w, h, x, y, x0, y0); }
    }
  }

  /** A probe of a row that neither end of a move lies in sees the same
      cells before and after the move. */
  lemma {:induction false} FirstOpenIgnoresShift(g: seq<Particle?>, w: int, h: int, x0: int, y0: int,
                                                 cx: int, cy: int, p: Particle, x: int, row: int, dirs: seq<int>)
    requires 0 < w && 0 < h && |g| == w * h && 0 <= row
    requires InBounds(w, h, x0, y0) && InBounds(w, h, cx, cy)
    requires 0 <= Idx(w, x0, y0) < |g| && 0 <= Idx(w, cx, cy) < |g|
    requires row != y0 && row != cy
    ensures FirstOpen(Shift(g, Idx(w, x0, y0), Idx(w, cx, cy), p), w, h, x, row, dirs) == FirstOpen(g, w, h, x, row, dirs)
  {
    if dirs != [] {
      ShiftKeepsOpen(g, w, h, x0, y0, cx, cy, p, x + dirs[0], row);
      FirstOpenIgnoresShift(g, w, h, x0, y0, cx, cy, p, x, row, dirs[1..]);
    }
  }

  /** The walk is still under way from (x, y): the loop invariant of
      `StepToward`, stated over the grid `g0` the walk started on. */
  ghost predicate Walking(world: World, p: Particle, g0: seq<Particle?>, x0: int, y0: int,
                          x: int, y: int, tx: int, ty: int, dx: int, dy: int)
    reads world.cells, world.cells[..], p
  {
    && world.Valid() && world.OnGrid(p) && x == p.x && y == p.y
    && |g0| == |world.cells[..]| && 0 <= ty
    && InBounds(world.width, world.height, x0, y0)
    && Between(x0, x, tx) && Between(y0, y, ty)
    && (x != tx ==> dx == Sign(tx - x))
    && (y != ty ==> dy == Sign(ty - y))
    && 0 <= Idx(world.width, x0, y0) < |g0|
    && world.cells[..] == Shift(g0, Idx(world.width, x0, y0), Idx(world.width, x, y), p)
    && ((x == x0 && y == y0) || StepOpen(g0, world.width, world.height, x, y))
  }

  /** One iteration of the loop (lines 42-61): advance each axis that has
      not reached its target, then move into the new cell if it is open or
      zero the velocity if it is not. */
  method Advance(world: World, p: Particle, x: int, y: int, tx: int, ty: int, dx: int, dy: int,
                 ghost g0: seq<Particle?>, ghost x0: int, ghost y0: int)
    returns (moved: bool, nx: int, ny: int)
    requires Walking(world, p, g0, x0, y0, x, y, tx, ty, dx, dy) && (x != tx || y != ty)
    modifies world.cells, p
    ensures nx == x + Sign(tx - x) && ny == y + Sign(ty - y) && 0 <= ny
    ensures moved == StepOpen(g0, world.width, world.height, nx, ny)
    ensures moved ==> Walking(world, p, g0, x0, y0, nx, ny, tx, ty, dx, dy)
    ensures moved ==> p.vx == old(p.vx) && p.vy == old(p.vy)
    ensures !moved ==> world.Valid() && world.OnGrid(p) && p.x == x && p.y == y
    ensures !moved ==> world.cells[..] == old(world.cells[..]) && p.vx == 0.0 && p.vy == 0.0
    ensures Cheb(nx, ny, tx, ty) < Cheb(x, y, tx, ty)
    ensures p.updatedThisFrame == old(p.updatedThisFrame)
  {
    var w, h := world.width, world.height;
    nx, ny := x, y;
    if nx != tx {
      nx := nx + dx;
    }
    if ny != ty {
      ny := ny + dy;
    }
    StepAlongSegment(x0, y0, x, y, tx, ty);
    ShiftKeepsOpen(g0, w, h, x0, y0, x, y, p, nx, ny);
    moved := false;
    if 0 <= nx < w && ny < h {
      IdxInRange(w, h, nx, ny);
      if world.cells[Idx(w, nx, ny)] == null {
        world.Move(p, nx, ny);
        ShiftTwice(g0, Idx(w, x0, y0), Idx(w, x, y), Idx(w, nx, ny), p);
        moved := true;
      }
    }
    if !moved {
      p.vx := 0.0;
      p.vy := 0.0;
    }
  }

  /** Lines 41-62 of both headers: walk toward (tx, ty), moving the
      particle after every open step; on the first closed step zero both
      velocity components and stop. */
  method StepToward(world: World, p: Particle, tx: int, ty: int) returns (ghost r: WalkEnd)
    requires world.Valid() && world.OnGrid(p) && 0 <= ty
    modifies world.cells, p
    ensures world.Valid() && world.OnGrid(p)
    ensures r == Walk(old(world.cells[..]), world.width, world.height, old(p.x), old(p.y), tx, ty)
    ensures p.x == r.x && p.y == r.y
    ensures world.cells[..] ==
      Shift(old(world.cells[..]), old(Idx(world.width, p.x, p.y)), Idx(world.width, p.x, p.y), p)
    ensures r.blocked ==> p.vx == 0.0 && p.vy == 0.0
    ensures !r.blocked ==> p.vx == old(p.vx) && p.vy == old(p.vy)
    ensures p.updatedThisFrame == old(p.updatedThisFrame)
  {
    var w, h := world.width, world.height;
    ghost var g0 := world.cells[..];
    ghost var x0, y0 := p.x, p.y;
    var x, y := p.x, p.y;
    var dx := Sign(tx - x);
    var dy := Sign(ty - y);
    r := Walk(g0, w, h, x, y, tx, ty);
    while x != tx || y != ty
      invariant Walking(world, p, g0, x0, y0, x, y, tx, ty, dx, dy)
      invariant Walk(g0, w, h, x, y, tx, ty).x == r.x && Walk(g0, w, h, x, y, tx, ty).y == r.y
      invariant Walk(g0, w, h, x, y, tx, ty).blocked == r.blocked
      invariant p.vx == old(p.vx) && p.vy == old(p.vy) && p.updatedThisFrame == old(p.updatedThisFrame)
      decreases Cheb(x, y, tx, ty)
    {
      WalkUnfold(g0, w, h, x, y, tx, ty);
      var moved;
      moved, x, y := Advance(world, p, x, y, tx, ty, dx, dy, g0, x0, y0);
      if !moved {
        break;
      }
    }
  }

  /** The `for (dx : directions)` probe with `break` (sand lines 65-80,
      water lines 55-69): move into the first open cell of row `p.y + dy`
      in the order of the shuffled `dirs`, if there is one. */
  method ProbeMove(world: World, p: Particle, dy: int, dirs: seq<int>) returns (ghost k: Option<nat>)
    requires world.Valid() && world.OnGrid(p) && 0 <= dy
    modifies world.cells, p
    ensures world.Valid() && world.OnGrid(p)
    ensures k == FirstOpen(old(world.cells[..]), world.width, world.height, old(p.x), old(p.y) + dy, dirs)
    ensures k.Some? ==> k.value < |dirs| && p.x == old(p.x) + dirs[k.value] && p.y == old(p.y) + dy
    ensures k.None? ==> p.x == old(p.x) && p.y == old(p.y)
    ensures world.cells[..] ==
      Shift(old(world.cells[..]), old(Idx(world.width, p.x, p.y)), Idx(world.width, p.x, p.y), p)
    ensures p.vx == old(p.vx) && p.vy == old(p.vy) && p.updatedThisFrame == old(p.updatedThisFrame)
  {
    var w, h := world.width, world.height;
    ghost var g0 := world.cells[..];
    var px, py := p.x, p.y;
    for i := 0 to |dirs|
      invariant world.cells[..] == g0 && p.x == px && p.y == py
      invariant p.vx == old(p.vx) && p.vy == old(p.vy) && p.updatedThisFrame == old(p.updatedThisFrame)
      invariant forall j :: 0 <= j < i ==> !StepOpen(g0, w, h, px + dirs[j], py + dy)
    {
      var cx, cy := p.x + dirs[i], p.y + dy;
      if 0 <= cx < w && cy < h {
        IdxInRange(w, h, cx, cy);
        if world.cells[Idx(w, cx, cy)] == null {
          FirstOpenIs(g0, w, h, px, py + dy, dirs, i);
          world.Move(p, cx, cy);
          k := Some(i);
          return;
        }
      }
    }
    k := None;
    FirstOpenSpec(g0, w, h, px, py + dy, dirs);
    assert Shift(g0, Idx(w, px, py), Idx(w, px, py), p) == g0;
  }
}
