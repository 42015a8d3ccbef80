/** `WaterParticle` (src/waterParticle.h): the same gravity walk as sand,
    then at most one sideways move in the walk's row, then a swap with a
    sand particle resting on top. */
module WaterParticle {
  import opened Grid
  import opened Motion

  /** The constructor: id 3, the given position, zero velocity. */
  method Create(x: int, y: int) returns (p: Particle)
    ensures fresh(p)
    ensures p.id == WATER_ID && p.x == x && p.y == y && p.vx == 0.0 && p.vy == 0.0
  {
    p := new Particle(WATER_ID, x, y);
  }

  /** The walk target: `int newX = x + velocity[0]` converts the sum, so it
      truncates `x + v` rather than adding a truncated `v` as sand does. */
  function Target(c: int, v: real): (t: int)
  {
    Trunc(c as real + v)
  }

  /** For a non-negative coordinate and speed the two ways of computing a
      target agree; for a negative speed they need not. */
  lemma TargetMatchesSand(c: int, v: real)
    requires 0 <= c && 0.0 <= v
    ensures Target(c, v) == c + Trunc(v)
  {
    TruncShift(c, v);
  }

  /** A negative speed shows the difference: water truncates 2.5 to 2,
      sand keeps 3 because -0.5 truncates to 0. */
  lemma TargetDiffersFromSand()
    ensures Target(3, -0.5) == 2 && 3 + Trunc(-0.5) == 3
  {
  }

  /** The state after the walk and the side move (lines 16-69): how the
      walk ended, which shuffled direction the side move took, the cell
      reached, the velocity and the grid. */
  datatype Flowed = Flowed(walk: WalkEnd, side: Option<nat>, x: int, y: int,
                           vx: real, vy: real, cells: seq<Particle?>)

  /** The walk toward the truncated `position + velocity` after gravity,
      then the first open cell beside the walk's end in the order `dirs`. */
  function Flow(g: seq<Particle?>, w: int, h: int, gravity: real, p: Particle,
                x: int, y: int, vx: real, vy: real, dirs: seq<int>): (f: Flowed)
    requires 0 < w && 0 < h && |g| == w * h && InBounds(w, h, x, y)
    requires 0.0 <= vy && 0.0 < gravity
    ensures InBounds(w, h, f.x, f.y) && |f.cells| == |g|
  {
    var vy1 := vy + gravity;
    var r := Walk(g, w, h, x, y, Target(x, vx), Target(y, vy1));
    WalkStopsOnOpenCell(g, w, h, x, y, Target(x, vx), Target(y, vy1));
    IdxInRange(w, h, x, y);
    IdxInRange(w, h, r.x, r.y);
    var g1 := Shift(g, Idx(w, x, y), Idx(w, r.x, r.y), p);
    var k := FirstOpen(g1, w, h, r.x, r.y, dirs);
    var sx := if k.Some? then r.x + dirs[k.value] else r.x;
    assert InBounds(w, h, sx, r.y) && 0 <= Idx(w, sx, r.y) < |g| by {
      if k.Some? {
        FirstOpenSpec(g1, w, h, r.x, r.y, dirs);
        StepOpenCell(g1, w, h, sx, r.y);
      }
    }
    var vx2, vy2 := if r.blocked then 0.0 else vx, if r.blocked then 0.0 else vy1;
    Flowed(r, k, sx, r.y, vx2, vy2, Shift(g1, Idx(w, r.x, r.y), Idx(w, sx, r.y), p))
  }

  /** The result of one update: the state after the side move, the
      particle found above it, whether that was sand and so swapped, and
      the final position, velocity and grid. */
  datatype Outcome = Outcome(flowed: Flowed, above: Particle?, swapped: bool,
                             x: int, y: int, vx: real, vy: real, cells: seq<Particle?>)

  /** The occupant of the cell above (x, y), if that row exists. */
  function AboveCell(g: seq<Particle?>, w: int, h: int, x: int, y: int): (q: Particle?)
    requires 0 < w && 0 < h && |g| == w * h && InBounds(w, h, x, y)
  {
    if y >= 1 then (IdxInRange(w, h, x, y - 1); g[Idx(w, x, y - 1)]) else null
  }

  /** One update of a water particle `p` standing at (x, y) with velocity
      (vx, vy) on grid `g`, the gravity increment `gravity` and the
      shuffled side order `dirs`: flow, then trade places with sand on top. */
  function Step(g: seq<Particle?>, w: int, h: int, gravity: real, p: Particle,
                x: int, y: int, vx: real, vy: real, dirs: seq<int>): (o: Outcome)
    requires 0 < w && 0 < h && |g| == w * h && InBounds(w, h, x, y)
    requires 0.0 <= vy && 0.0 < gravity
  {
    var f := Flow(g, w, h, gravity, p, x, y, vx, vy, dirs);
    var q := AboveCell(f.cells, w, h, f.x, f.y);
    if q != null && q.id == SAND_ID then
      IdxInRange(w, h, f.x, f.y);
      IdxInRange(w, h, f.x, f.y - 1);
      Outcome(f, q, true, f.x, f.y - 1, f.vx, f.vy,
              f.cells[Idx(w, f.x, f.y) := q][Idx(w, f.x, f.y - 1) := p])
    else
      Outcome(f, q, false, f.x, f.y, f.vx, f.vy, f.cells)
  }

  /** The walk and the side move, as the update performs them one after
      the other, make up `Flow`. */
  lemma FlowComposes(g0: seq<Particle?>, w: int, h: int, gravity: real, p: Particle,
                     x: int, y: int, vx: real, vy: real, dirs: seq<int>,
                     r: WalkEnd, g1: seq<Particle?>, rx: int, ry: int, k: Option<nat>,
                     g2: seq<Particle?>, sx: int, sy: int)
    requires 0 < w && 0 < h && |g0| == w * h && InBounds(w, h, x, y)
    requires 0.0 <= vy && 0.0 < gravity
    requires r == Walk(g0, w, h, x, y, Target(x, vx), Target(y, vy + gravity))
    requires InBounds(w, h, r.x, r.y) && 0 <= Idx(w, x, y) < |g0| && 0 <= Idx(w, r.x, r.y) < |g0|
    requires g1 == Shift(g0, Idx(w, x, y), Idx(w, r.x, r.y), p)
    requires rx == r.x && ry == r.y && k == FirstOpen(g1, w, h, rx, ry, dirs)
    requires k.Some? ==> k.value < |dirs| && sx == rx + dirs[k.value] && sy == ry
    requires k.None? ==> sx == rx && sy == ry
    requires InBounds(w, h, sx, sy) && 0 <= Idx(w, sx, sy) < |g0|
    requires g2 == Shift(g1, Idx(w, rx, ry), Idx(w, sx, sy), p)
    ensures Flow(g0, w, h, gravity, p, x, y, vx, vy, dirs) ==
            Flowed(r, k, sx, sy, if r.blocked then 0.0 else vx, if r.blocked then 0.0 else vy + gravity, g2)
  {
  }

  /** The parts of `Flow`, one equation each. */
  lemma FlowParts(g: seq<Particle?>, w: int, h: int, gravity: real, p: Particle,
                  x: int, y: int, vx: real, vy: real, dirs: seq<int>)
    requires 0 < w && 0 < h && |g| == w * h && InBounds(w, h, x, y)
    requires 0.0 <= vy && 0.0 < gravity
    ensures var f := Flow(g, w, h, gravity, p, x, y, vx, vy, dirs);
      var r := Walk(g, w, h, x, y, Target(x, vx), Target(y, vy + gravity));
      && f.walk == r && InBounds(w, h, r.x, r.y) && f.y == r.y
      && 0 <= Idx(w, x, y) < |g| && 0 <= Idx(w, r.x, r.y) < |g| && 0 <= Idx(w, f.x, f.y) < |g|
      && f.side == FirstOpen(Shift(g, Idx(w, x, y), Idx(w, r.x, r.y), p), w, h, r.x, r.y, dirs)
      && (f.side.Some? ==> f.x == r.x + dirs[f.side.value])
      && (f.side.None? ==> f.x == r.x)
      && f.cells == Shift(Shift(g, Idx(w, x, y), Idx(w, r.x, r.y), p), Idx(w, r.x, r.y), Idx(w, f.x, f.y), p)
      && f.vx == (if r.blocked then 0.0 else vx) && f.vy == (if r.blocked then 0.0 else vy + gravity)
  {
    WalkStopsOnOpenCell(g, w, h, x, y, Target(x, vx), Target(y, vy + gravity));
    var r := Walk(g, w, h, x, y, Target(x, vx), Target(y, vy + gravity));
    IdxInRange(w, h, x, y);
    IdxInRange(w, h, r.x, r.y);
    var f := Flow(g, w, h, gravity, p, x, y, vx, vy, dirs);
    IdxInRange(w, h, f.x, f.y);
  }

  /** Velocity after the walk: it stays non-negative downward, it is
      zeroed exactly when a step was blocked, an unblocked walk reaches its
      target, and a particle with no sideways speed falls straight down. */
  lemma {:induction false} FlowVelocity(g: seq<Particle?>, w: int, h: int, gravity: real, p: Particle,
                                        x: int, y: int, vx: real, vy: real, dirs: seq<int>)
    requires 0 < w && 0 < h && |g| == w * h && InBounds(w, h, x, y)
    requires 0.0 <= vy && 0.0 < gravity
    ensures var f := Flow(g, w, h, gravity, p, x, y, vx, vy, dirs);
      && 0.0 <= f.vy
      && (f.vy == 0.0 <==> f.walk.blocked)
      && (!f.walk.blocked <==> (f.walk.x == Target(x, vx) && f.walk.y == Target(y, vy + gravity)))
      && (vx == 0.0 ==> f.vx == 0.0 && f.walk.x == x)
      && y <= f.walk.y
  {
    FlowParts(g, w, h, gravity, p, x, y, vx, vy, dirs);
    WalkBounded(g, w, h, x, y, Target(x, vx), Target(y, vy + gravity));
    TargetMatchesSand(x, 0.0);
    TargetMatchesSand(y, vy + gravity);
  }

  /** The 0 left in the third slot of `directions` names the particle's
      own cell, which is never open: it is never chosen. */
  lemma {:induction false} SideNeverOwnCell(g: seq<Particle?>, w: int, h: int, gravity: real, p: Particle,
                                            x: int, y: int, vx: real, vy: real, dirs: seq<int>)
    requires 0 < w && 0 < h && |g| == w * h && InBounds(w, h, x, y)
    requires 0.0 <= vy && 0.0 < gravity
    ensures var f := Flow(g, w, h, gravity, p, x, y, vx, vy, dirs);
      f.side.Some? ==> dirs[f.side.value] != 0 && f.x != f.walk.x
  {
    var f := Flow(g, w, h, gravity, p, x, y, vx, vy, dirs);
    var r := f.walk;
    FlowParts(g, w, h, gravity, p, x, y, vx, vy, dirs);
    var g1 := Shift(g, Idx(w, x, y), Idx(w, r.x, r.y), p);
    FirstOpenSpec(g1, w, h, r.x, r.y, dirs);
    if f.side.Some? && dirs[f.side.value] == 0 {
      StepOpenCell(g1, w, h, r.x, r.y);
      assert false;
    }
  }

  /** The side move, for shuffled directions {-1, 1, 0}: the particle
      moves one cell to the left or right into a cell that was open once
      the walk had ended, and stays put exactly when both are closed. When
      it has no sideways speed those two cells are as they were before the
      update. */
  lemma {:induction false} SideRule(g: seq<Particle?>, w: int, h: int, gravity: real, p: Particle,
                                    x: int, y: int, vx: real, vy: real, dirs: seq<int>)
    requires 0 < w && 0 < h && |g| == w * h && InBounds(w, h, x, y)
    requires 0.0 <= vy && 0.0 < gravity
    requires multiset(dirs) == multiset{-1, 1, 0}
    ensures var f := Flow(g, w, h, gravity, p, x, y, vx, vy, dirs);
      var r := f.walk;
      && InBounds(w, h, r.x, r.y) && 0 <= Idx(w, x, y) < |g| && 0 <= Idx(w, r.x, r.y) < |g|
      && var g1 := Shift(g, Idx(w, x, y), Idx(w, r.x, r.y), p);
      && (f.side.Some? ==> f.y == r.y && (f.x == r.x - 1 || f.x == r.x + 1) && StepOpen(g1, w, h, f.x, f.y))
      && (f.side.None? <==> !StepOpen(g1, w, h, r.x - 1, r.y) && !StepOpen(g1, w, h, r.x + 1, r.y))
      && (vx == 0.0 ==>
            (f.side.None? <==> !StepOpen(g, w, h, r.x - 1, r.y) && !StepOpen(g, w, h, r.x + 1, r.y)))
  {
    var f := Flow(g, w, h, gravity, p, x, y, vx, vy, dirs);
    var r := f.walk;
    FlowParts(g, w, h, gravity, p, x, y, vx, vy, dirs);
    SideNeverOwnCell(g, w, h, gravity, p, x, y, vx, vy, dirs);
    var g1 := Shift(g, Idx(w, x, y), Idx(w, r.x, r.y), p);
    FirstOpenOfThree(g1, w, h, r.x, r.y, dirs);
    assert g1[Idx(w, r.x, r.y)] == p;
    if vx == 0.0 {
      FlowVelocity(g, w, h, gravity, p, x, y, vx, vy, dirs);
      ShiftKeepsOpen(g, w, h, x, y, r.x, r.y, p, r.x - 1, r.y);
      ShiftKeepsOpen(g, w, h, x, y, r.x, r.y, p, r.x + 1, r.y);
    }
  }

  /** Flowing moves `p` from its cell to one that was empty (or back to
      its own), so the grid keeps every particle and every empty cell. */
  lemma {:induction false} FlowConserves(g: seq<Particle?>, w: int, h: int, gravity: real, p: Particle,
                                         x: int, y: int, vx: real, vy: real, dirs: seq<int>)
    requires 0 < w && 0 < h && |g| == w * h && InBounds(w, h, x, y)
    requires 0.0 <= vy && 0.0 < gravity
    requires 0 <= Idx(w, x, y) < |g| && g[Idx(w, x, y)] == p
    ensures var f := Flow(g, w, h, gravity, p, x, y, vx, vy, dirs);
      && 0 <= Idx(w, f.x, f.y) < |g| && f.cells[Idx(w, f.x, f.y)] == p
      && multiset(f.cells) == multiset(g)
  {
    var f := Flow(g, w, h, gravity, p, x, y, vx, vy, dirs);
    var r := f.walk;
    FlowParts(g, w, h, gravity, p, x, y, vx, vy, dirs);
    WalkStopsOnOpenCell(g, w, h, x, y, Target(x, vx), Target(y, vy + gravity));
    var s, m, c := Idx(w, x, y), Idx(w, r.x, r.y), Idx(w, f.x, f.y);
    if r.x != x || r.y != y {
      StepOpenCell(g, w, h, r.x, r.y);
    }
    ShiftTwice(g, s, m, c, p);
    var g1 := Shift(g, s, m, p);
    if f.side.Some? {
      FirstOpenSpec(g1, w, h, r.x, r.y, dirs);
      StepOpenCell(g1, w, h, f.x, f.y);
      assert c == s || g[c] == null by { assert g1[c] == null && c != m; }
    }
    ShiftPermutes(g, s, c, p);
  }

  /** A whole update keeps every particle and every empty cell: the walk
      and the side move only move `p`, and the sink trades two cells. */
  lemma {:induction false} StepConserves(g: seq<Particle?>, w: int, h: int, gravity: real, p: Particle,
                                         x: int, y: int, vx: real, vy: real, dirs: seq<int>)
    requires 0 < w && 0 < h && |g| == w * h && InBounds(w, h, x, y)
    requires 0.0 <= vy && 0.0 < gravity
    requires 0 <= Idx(w, x, y) < |g| && g[Idx(w, x, y)] == p
    ensures multiset(Step(g, w, h, gravity, p, x, y, vx, vy, dirs).cells) == multiset(g)
  {
    var f := Flow(g, w, h, gravity, p, x, y, vx, vy, dirs);
    FlowConserves(g, w, h, gravity, p, x, y, vx, vy, dirs);
    if f.y >= 1 {
      IdxInRange(w, h, f.x, f.y);
      IdxInRange(w, h, f.x, f.y - 1);
      SwapPermutes(f.cells, Idx(w, f.x, f.y), Idx(w, f.x, f.y - 1));
    }
  }

  /** The sink: when sand rests right on top of the particle after it has
      flowed, the two trade cells and nothing else changes; otherwise (top
      row, empty cell above or anything but sand above) the grid is left as
      the flow left it. */
  lemma {:induction false} StepSinksSand(g: seq<Particle?>, w: int, h: int, gravity: real, p: Particle,
                                         x: int, y: int, vx: real, vy: real, dirs: seq<int>)
    requires 0 < w && 0 < h && |g| == w * h && InBounds(w, h, x, y)
    requires 0.0 <= vy && 0.0 < gravity
    ensures var o := Step(g, w, h, gravity, p, x, y, vx, vy, dirs);
      var f := o.flowed;
      && InBounds(w, h, f.x, f.y) && 0 <= Idx(w, f.x, f.y) < |g|
      && (o.swapped ==>
            && o.above != null && o.above.id == SAND_ID
            && o.x == f.x && o.y == f.y - 1 && 0 <= Idx(w, o.x, o.y) < |g|
            && f.cells[Idx(w, o.x, o.y)] == o.above
            && o.cells[Idx(w, o.x, o.y)] == p && o.cells[Idx(w, f.x, f.y)] == o.above
            && forall i :: 0 <= i < |g| && i != Idx(w, f.x, f.y) && i != Idx(w, o.x, o.y) ==> o.cells[i] == f.cells[i])
      && (!o.swapped ==> o.x == f.x && o.y == f.y && o.cells == f.cells)
      && (!o.swapped ==>
            (f.y == 0 || (0 <= Idx(w, f.x, f.y - 1) < |g| &&
              (f.cells[Idx(w, f.x, f.y - 1)] == null || f.cells[Idx(w, f.x, f.y - 1)].id != SAND_ID))))
  {
    var o := Step(g, w, h, gravity, p, x, y, vx, vy, dirs);
    var f := o.flowed;
    FlowParts(g, w, h, gravity, p, x, y, vx, vy, dirs);
    if !o.swapped && f.y >= 1 {
      IdxInRange(w, h, f.x, f.y - 1);
    }
    if o.swapped {
      IdxInRange(w, h, f.x, f.y - 1);
      var a, b := Idx(w, f.x, f.y), Idx(w, f.x, f.y - 1);
      assert o.cells == f.cells[a := o.above][b := p];
      assert a != b;
    }
  }

  /** Flowing only moves `p`: every particle on the grid afterwards was
      on it before. */
  lemma FlowKeepsMembers(g: seq<Particle?>, w: int, h: int, gravity: real, p: Particle,
                         x: int, y: int, vx: real, vy: real, dirs: seq<int>, j: int)
    requires 0 < w && 0 < h && |g| == w * h && InBounds(w, h, x, y)
    requires 0.0 <= vy && 0.0 < gravity
    requires 0 <= Idx(w, x, y) < |g| && g[Idx(w, x, y)] == p && 0 <= j < |g|
    ensures var f := Flow(g, w, h, gravity, p, x, y, vx, vy, dirs);
      f.cells[j] != null ==> f.cells[j] in Members(g)
  {
    var f := Flow(g, w, h, gravity, p, x, y, vx, vy, dirs);
    var r := f.walk;
    WalkStopsOnOpenCell(g, w, h, x, y, Target(x, vx), Target(y, vy + gravity));
    IdxInRange(w, h, r.x, r.y);
    IdxInRange(w, h, f.x, f.y);
    MovedStillMember(g, Idx(w, x, y), Idx(w, r.x, r.y), Idx(w, f.x, f.y), p, j);
  }

  /** Lines 16-52: `velocity[1] += GRAVITY / 50`, then the walk toward the
      truncated `position + velocity`. */
  method Fall(world: World, p: Particle) returns (ghost r: WalkEnd)
    requires world.Valid() && world.OnGrid(p) && 0.0 <= p.vy
    modifies world.cells, p
    ensures world.Valid() && world.OnGrid(p)
    ensures r == Walk(old(world.cells[..]), world.width, world.height, old(p.x), old(p.y),
                      Target(old(p.x), old(p.vx)), Target(old(p.y), old(p.vy) + world.gravity))
    ensures p.x == r.x && p.y == r.y
    ensures world.cells[..] ==
            Shift(old(world.cells[..]), old(Idx(world.width, p.x, p.y)), Idx(world.width, r.x, r.y), p)
    ensures p.vx == (if r.blocked then 0.0 else old(p.vx))
    ensures p.vy == (if r.blocked then 0.0 else old(p.vy) + world.gravity)
    ensures p.updatedThisFrame == old(p.updatedThisFrame)
  {
    var x, y := p.x, p.y;
    p.vy := p.vy + world.gravity;
    var newX := Target(x, p.vx);
    var newY := Target(y, p.vy);
    r := StepToward(world, p, newX, newY);
  }

  /** Lines 16-69: fall, then move sideways into the first open cell among
      the shuffled `directions` of the same row. */
  method FallAndSpread(world: World, p: Particle, directions: seq<int>) returns (ghost f: Flowed)
    requires world.Valid() && world.OnGrid(p) && 0.0 <= p.vy
    modifies world.cells, p
    ensures world.Valid() && world.OnGrid(p)
    ensures f == Flow(old(world.cells[..]), world.width, world.height, world.gravity, p,
                      old(p.x), old(p.y), old(p.vx), old(p.vy), directions)
    ensures p.x == f.x && p.y == f.y && p.vx == f.vx && p.vy == f.vy && world.cells[..] == f.cells
    ensures p.updatedThisFrame == old(p.updatedThisFrame)
  {
    label Start:
    ghost var r := Fall(world, p);
    label Fallen:
    ghost var k := ProbeMove(world, p, 0, directions);
    FlowComposes(old@Start(world.cells[..]), world.width, world.height, world.gravity, p,
                 old@Start(p.x), old@Start(p.y), old@Start(p.vx), old@Start(p.vy), directions,
                 r, old@Fallen(world.cells[..]), old@Fallen(p.x), old@Fallen(p.y), k,
                 world.cells[..], p.x, p.y);
    f := Flow(old@Start(world.cells[..]), world.width, world.height, world.gravity, p,
              old@Start(p.x), old@Start(p.y), old@Start(p.vx), old@Start(p.vy), directions);
  }

  /** The particle resting on top of `p`, as a frame. */
  ghost function AboveSet(world: World, p: Particle): set<Particle>
    requires world.Valid() && world.OnGrid(p)
    reads world.cells, world.cells[..], p
  {
    var q := AboveCell(world.cells[..], world.width, world.height, p.x, p.y);
    if q != null then {q} else {}
  }

  /** Lines 71-85: a sand particle right above trades places with the water. */
  method Sink(world: World, p: Particle) returns (ghost q: Particle?)
    requires world.Valid() && world.OnGrid(p)
    modifies world.cells, p, AboveSet(world, p)
    ensures world.Valid() && world.OnGrid(p)
    ensures q == AboveCell(old(world.cells[..]), world.width, world.height, old(p.x), old(p.y))
    ensures q != null && q.id == SAND_ID ==>
      && old(p.y) >= 1 && p.x == old(p.x) && p.y == old(p.y) - 1
      && q.x == old(p.x) && q.y == old(p.y) && world.OnGrid(q)
      && 0 <= Idx(world.width, old(p.x), old(p.y) - 1) < world.cells.Length
      && world.cells[..] == old(world.cells[..])[old(Idx(world.width, p.x, p.y)) := q]
                                                [Idx(world.width, old(p.x), old(p.y) - 1) := p]
    ensures !(q != null && q.id == SAND_ID) ==>
      p.x == old(p.x) && p.y == old(p.y) && world.cells[..] == old(world.cells[..])
    ensures p.vx == old(p.vx) && p.vy == old(p.vy) && p.updatedThisFrame == old(p.updatedThisFrame)
    ensures q != null ==> q.vx == old(q.vx) && q.vy == old(q.vy) && q.updatedThisFrame == old(q.updatedThisFrame)
  {
    var aboveX, aboveY := p.x, p.y - 1;
    q := AboveCell(world.cells[..], world.width, world.height, p.x, p.y);
    if 0 <= aboveX < world.width && aboveY >= 0 {
      var above := world.At(aboveX, aboveY);
      if above != null && above.id == SAND_ID {
        world.Swap(p, above);
      }
    }
  }

  /** Lines 15-88: fall and spread, let a sand particle on top sink past,
      then mark updated. Only `p` and that sand particle change. */
  method Update(world: World, p: Particle, directions: seq<int>)
    requires world.Valid() && world.OnGrid(p) && p.id == WATER_ID
    requires 0.0 <= p.vy
    requires multiset(directions) == multiset{-1, 1, 0}
    modifies world.cells, world.Occupants()
    ensures world.Valid() && world.OnGrid(p) && p.updatedThisFrame
    ensures var o := Step(old(world.cells[..]), world.width, world.height, world.gravity, p,
                          old(p.x), old(p.y), old(p.vx), old(p.vy), directions);
      && p.x == o.x && p.y == o.y && p.vx == o.vx && p.vy == o.vy && world.cells[..] == o.cells
      && (o.swapped ==> o.above.x == o.flowed.x && o.above.y == o.flowed.y)
    ensures forall o :: o in old(world.Occupants()) && o != p ==>
      o.vx == old(o.vx) && o.vy == old(o.vy) && o.updatedThisFrame == old(o.updatedThisFrame)
  {
    label Start:
    ghost var f := FallAndSpread(world, p, directions);
    label Flowed:
    if p.y >= 1 {
      IdxInRange(world.width, world.height, p.x, p.y - 1);
      FlowKeepsMembers(old@Start(world.cells[..]), world.width, world.height, world.gravity, p,
                       old@Start(p.x), old@Start(p.y), old@Start(p.vx), old@Start(p.vy), directions,
                       Idx(world.width, p.x, p.y - 1));
    }
    ghost var q := Sink(world, p);
    ghost var o := Step(old(world.cells[..]), world.width, world.height, world.gravity, p,
                        old(p.x), old(p.y), old(p.vx), old(p.vy), directions);
    assert o.flowed == f && o.above == q;
    p.updatedThisFrame := true;
    forall o | o in old(world.Occupants()) && o != p
      ensures o.vx == old(o.vx) && o.vy == old(o.vy) && o.updatedThisFrame == old(o.updatedThisFrame)
    {
      assert o.vx == old@Flowed(o.vx) && o.vy == old@Flowed(o.vy);
      assert o.updatedThisFrame == old@Flowed(o.updatedThisFrame);
    }
  }
}
