/** `SandParticle` (src/sandParticle.h): gravity, a step-by-step fall
    toward the velocity target, then at most one settle into the row below. */
module SandParticle {
  import opened Grid
  import opened Motion

  /** The constructor: id 1, the given position, zero velocity. */
  method Create(x: int, y: int) returns (p: Particle)
    ensures fresh(p)
    ensures p.id == SAND_ID && p.x == x && p.y == y && p.vx == 0.0 && p.vy == 0.0
  {
    p := new Particle(SAND_ID, x, y);
  }

  /** The result of one update: how the walk ended, which shuffled
      direction the settle took, and the particle's final position and
      velocity. */
  datatype Outcome = Outcome(walk: WalkEnd, settle: Option<nat>, x: int, y: int, vx: real, vy: real)

  /** One update of a sand particle `p` standing at (x, y) with velocity
      (vx, vy) on grid `g`, the gravity increment `gravity` and the settle
      order `dirs`. */
  function Step(g: seq<Particle?>, w: int, h: int, gravity: real, p: Particle,
                x: int, y: int, vx: real, vy: real, dirs: seq<int>): (o: Outcome)
    requires 0 < w && 0 < h && |g| == w * h && InBounds(w, h, x, y)
    requires 0.0 <= vy && 0.0 < gravity
  {
    var vy1 := vy + gravity;
    var r := Walk(g, w, h, x, y, x + Trunc(vx), y + Trunc(vy1));
    WalkStopsOnOpenCell(g, w, h, x, y, x + Trunc(vx), y + Trunc(vy1));
    IdxInRange(w, h, x, y);
    IdxInRange(w, h, r.x, r.y);
    var g1 := Shift(g, Idx(w, x, y), Idx(w, r.x, r.y), p);
    var k := FirstOpen(g1, w, h, r.x, r.y + 1, dirs);
    var vx2, vy2 := if r.blocked then 0.0 else vx, if r.blocked then 0.0 else vy1;
    match k
    case Some(i) => Outcome(r, k, r.x + dirs[i], r.y + 1, vx2, vy2)
    case None => Outcome(r, k, r.x, r.y, vx2, vy2)
  }

  /** The parts of `Step`, one equation each. */
  lemma StepParts(g: seq<Particle?>, w: int, h: int, gravity: real, p: Particle,
                  x: int, y: int, vx: real, vy: real, dirs: seq<int>)
    requires 0 < w && 0 < h && |g| == w * h && InBounds(w, h, x, y)
    requires 0.0 <= vy && 0.0 < gravity
    ensures var o := Step(g, w, h, gravity, p, x, y, vx, vy, dirs);
      var r := Walk(g, w, h, x, y, x + Trunc(vx), y + Trunc(vy + gravity));
      && o.walk == r && InBounds(w, h, r.x, r.y)
      && 0 <= Idx(w, x, y) < |g| && 0 <= Idx(w, r.x, r.y) < |g|
      && o.settle == FirstOpen(Shift(g, Idx(w, x, y), Idx(w, r.x, r.y), p), w, h, r.x, r.y + 1, dirs)
      && o.vx == (if r.blocked then 0.0 else vx) && o.vy == (if r.blocked then 0.0 else vy + gravity)
      && (o.settle.Some? ==> o.settle.value < |dirs| && o.x == r.x + dirs[o.settle.value] && o.y == r.y + 1)
      && (o.settle.None? ==> o.x == r.x && o.y == r.y)
  {
    WalkStopsOnOpenCell(g, w, h, x, y, x + Trunc(vx), y + Trunc(vy + gravity));
    IdxInRange(w, h, x, y);
    var r := Walk(g, w, h, x, y, x + Trunc(vx), y + Trunc(vy + gravity));
    IdxInRange(w, h, r.x, r.y);
  }

  /** The walk and the settle, as the update performs them one after the
      other, make up `Step`; the cell the walk stops on was
      the particle's own or empty. */
  lemma StepComposes(g0: seq<Particle?>, w: int, h: int, gravity: real, p: Particle,
                     x: int, y: int, vx: real, vy: real, dirs: seq<int>,
                     r: WalkEnd, g1: seq<Particle?>, rx: int, ry: int, k: Option<nat>, fx: int, fy: int)
    requires 0 < w && 0 < h && |g0| == w * h && InBounds(w, h, x, y)
    requires 0.0 <= vy && 0.0 < gravity
    requires r == Walk(g0, w, h, x, y, x + Trunc(vx), y + Trunc(vy + gravity))
    requires InBounds(w, h, r.x, r.y) && 0 <= Idx(w, x, y) < |g0| && 0 <= Idx(w, r.x, r.y) < |g0|
    requires g1 == Shift(g0, Idx(w, x, y), Idx(w, r.x, r.y), p)
    requires rx == r.x && ry == r.y && k == FirstOpen(g1, w, h, rx, ry + 1, dirs)
    requires k.Some? ==> k.value < |dirs| && fx == rx + dirs[k.value] && fy == ry + 1
    requires k.None? ==> fx == rx && fy == ry
    ensures var o := Step(g0, w, h, gravity, p, x, y, vx, vy, dirs);
      && o.walk == r && o.settle == k && o.x == fx && o.y == fy
      && o.vx == (if r.blocked then 0.0 else vx) && o.vy == (if r.blocked then 0.0 else vy + gravity)
      && (Idx(w, r.x, r.y) == Idx(w, x, y) || g0[Idx(w, r.x, r.y)] == null)
  {
    StepParts(g0, w, h, gravity, p, x, y, vx, vy, dirs);
    WalkStopsOnOpenCell(g0, w, h, x, y, x + Trunc(vx), y + Trunc(vy + gravity));
    if r.x != x || r.y != y {
      StepOpenCell(g0, w, h, r.x, r.y);
    }
  }

  /** Velocity after one update: it stays non-negative downward, it is
      zeroed exactly when a step was blocked, an unblocked walk reaches its
      target, and a particle with no sideways speed falls straight down. */
  lemma {:induction false} StepVelocity(g: seq<Particle?>, w: int, h: int, gravity: real, p: Particle,
                                        x: int, y: int, vx: real, vy: real, dirs: seq<int>)
    requires 0 < w && 0 < h && |g| == w * h && InBounds(w, h, x, y)
    requires 0.0 <= vy && 0.0 < gravity
    ensures var o := Step(g, w, h, gravity, p, x, y, vx, vy, dirs);
      && 0.0 <= o.vy
      && (o.vy == 0.0 <==> o.walk.blocked)
      && (!o.walk.blocked <==> (o.walk.x == x + Trunc(vx) && o.walk.y == y + Trunc(vy + gravity)))
      && (vx == 0.0 ==> o.vx == 0.0 && o.walk.x == x)
  {
    StepParts(g, w, h, gravity, p, x, y, vx, vy, dirs);
    WalkBounded(g, w, h, x, y, x + Trunc(vx), y + Trunc(vy + gravity));
  }

  /** The particle ends on the grid, no higher than it started and at most
      one row below where the walk stopped, in its own cell or one that was
      empty; so the update only moves it and keeps every other particle. */
  lemma {:induction false} StepLands(g: seq<Particle?>, w: int, h: int, gravity: real, p: Particle,
                                     x: int, y: int, vx: real, vy: real, dirs: seq<int>)
    requires 0 < w && 0 < h && |g| == w * h && InBounds(w, h, x, y)
    requires 0.0 <= vy && 0.0 < gravity
    requires 0 <= Idx(w, x, y) < |g| && g[Idx(w, x, y)] == p
    ensures var o := Step(g, w, h, gravity, p, x, y, vx, vy, dirs);
      && InBounds(w, h, o.x, o.y) && 0 <= Idx(w, o.x, o.y) < |g|
      && y <= o.walk.y <= o.y <= o.walk.y + 1
      && ((o.x == x && o.y == y) || g[Idx(w, o.x, o.y)] == null)
      && multiset(Shift(g, Idx(w, x, y), Idx(w, o.x, o.y), p)) == multiset(g)
  {
    var o := Step(g, w, h, gravity, p, x, y, vx, vy, dirs);
    var r := o.walk;
    StepParts(g, w, h, gravity, p, x, y, vx, vy, dirs);
    WalkBounded(g, w, h, x, y, x + Trunc(vx), y + Trunc(vy + gravity));
    WalkStopsOnOpenCell(g, w, h, x, y, x + Trunc(vx), y + Trunc(vy + gravity));
    var s, m := Idx(w, x, y), Idx(w, r.x, r.y);
    var g1 := Shift(g, s, m, p);
    if o.settle.Some? {
      FirstOpenSpec(g1, w, h, r.x, r.y + 1, dirs);
      StepOpenCell(g1, w, h, o.x, o.y);
      var c := Idx(w, o.x, o.y);
      if c == s { IdxInjective(w, h, o.x, o.y, x, y); }
      assert g[c] == null by { assert g1[c] == null && c != m && c != s; }
    } else if r.x != x || r.y != y {
      StepOpenCell(g, w, h, r.x, r.y);
    }
    ShiftPermutes(g, s, Idx(w, o.x, o.y), p);
  }

  /** The settle probes the row below the walk's end as it was before the
      update: neither the start cell nor the walk's end lies in that row. */
  lemma {:induction false} SettleSeesGrid(g: seq<Particle?>, w: int, h: int, gravity: real, p: Particle,
                                          x: int, y: int, vx: real, vy: real, dirs: seq<int>)
    requires 0 < w && 0 < h && |g| == w * h && InBounds(w, h, x, y)
    requires 0.0 <= vy && 0.0 < gravity
    ensures var o := Step(g, w, h, gravity, p, x, y, vx, vy, dirs);
      0 <= o.walk.y && o.settle == FirstOpen(g, w, h, o.walk.x, o.walk.y + 1, dirs)
  {
    var r := Walk(g, w, h, x, y, x + Trunc(vx), y + Trunc(vy + gravity));
    StepParts(g, w, h, gravity, p, x, y, vx, vy, dirs);
    WalkBounded(g, w, h, x, y, x + Trunc(vx), y + Trunc(vy + gravity));
    assert y <= r.y;
    FirstOpenIgnoresShift(g, w, h, x, y, r.x, r.y, p, r.x, r.y + 1, dirs);
  }

  /** The settle, for shuffled directions {-1, 0, 1}: the particle moves
      to an open cell among the three below the walk's end, and stays put
      exactly when all three are closed, which is always so on the bottom
      row. */
  lemma {:induction false} SettleRule(g: seq<Particle?>, w: int, h: int, gravity: real, p: Particle,
                                      x: int, y: int, vx: real, vy: real, dirs: seq<int>)
    requires 0 < w && 0 < h && |g| == w * h && InBounds(w, h, x, y)
    requires 0.0 <= vy && 0.0 < gravity
    requires multiset(dirs) == multiset{-1, 0, 1}
    ensures var o := Step(g, w, h, gravity, p, x, y, vx, vy, dirs);
      var r := o.walk;
      && 0 <= r.y
      && (o.settle.Some? ==> o.y == r.y + 1 && r.x - 1 <= o.x <= r.x + 1 && StepOpen(g, w, h, o.x, o.y))
      && (o.settle.None? <==> (o.x == r.x && o.y == r.y))
      && (o.settle.None? <==>
            !StepOpen(g, w, h, r.x - 1, r.y + 1) && !StepOpen(g, w, h, r.x, r.y + 1) && !StepOpen(g, w, h, r.x + 1, r.y + 1))
      && (r.y == h - 1 ==> o.settle.None?)
  {
    var o := Step(g, w, h, gravity, p, x, y, vx, vy, dirs);
    var r := o.walk;
    StepParts(g, w, h, gravity, p, x, y, vx, vy, dirs);
    WalkStopsOnOpenCell(g, w, h, x, y, x + Trunc(vx), y + Trunc(vy + gravity));
    SettleSeesGrid(g, w, h, gravity, p, x, y, vx, vy, dirs);
    FirstOpenOfThree(g, w, h, r.x, r.y + 1, dirs);
  }

  /** Lines 26-62: `velocity[1] += GRAVITY / 50`, then the step-by-step
      walk toward `position + trunc(velocity)`. */
  method Fall(world: World, p: Particle) returns (ghost r: WalkEnd)
    requires world.Valid() && world.OnGrid(p) && 0.0 <= p.vy
    modifies world.cells, p
    ensures world.Valid() && world.OnGrid(p)
    ensures r == Walk(old(world.cells[..]), world.width, world.height, old(p.x), old(p.y),
                      old(p.x) + Trunc(old(p.vx)), old(p.y) + Trunc(old(p.vy) + world.gravity))
    ensures p.x == r.x && p.y == r.y
    ensures world.cells[..] ==
            Shift(old(world.cells[..]), old(Idx(world.width, p.x, p.y)), Idx(world.width, r.x, r.y), p)
    ensures p.vx == (if r.blocked then 0.0 else old(p.vx))
    ensures p.vy == (if r.blocked then 0.0 else old(p.vy) + world.gravity)
    ensures p.updatedThisFrame == old(p.updatedThisFrame)
  {
    var x, y := p.x, p.y;
    p.vy := p.vy + world.gravity;
    var newX := x + Trunc(p.vx);
    var newY := y + Trunc(p.vy);
    r := StepToward(world, p, newX, newY);
  }

  /** Lines 25-83: fall, then settle into the first open cell among the
      shuffled `directions` of the row below, then mark updated. */
  method Update(world: World, p: Particle, directions: seq<int>)
    requires world.Valid() && world.OnGrid(p) && p.id == SAND_ID
    requires 0.0 <= p.vy
    requires multiset(directions) == multiset{-1, 0, 1}
    modifies world.cells, p
    ensures world.Valid() && world.OnGrid(p) && p.updatedThisFrame
    ensures var o := Step(old(world.cells[..]), world.width, world.height, world.gravity, p,
                          old(p.x), old(p.y), old(p.vx), old(p.vy), directions);
      && p.x == o.x && p.y == o.y && p.vx == o.vx && p.vy == o.vy
      && world.cells[..] ==
         Shift(old(world.cells[..]), old(Idx(world.width, p.x, p.y)), Idx(world.width, o.x, o.y), p)
  {
    label Start:
    ghost var r := Fall(world, p);
    label Fallen:
    ghost var k := ProbeMove(world, p, 1, directions);
    StepComposes(old@Start(world.cells[..]), world.width, world.height, world.gravity, p,
                 old@Start(p.x), old@Start(p.y), old@Start(p.vx), old@Start(p.vy), directions,
                 r, old@Fallen(world.cells[..]), old@Fallen(p.x), old@Fallen(p.y), k, p.x, p.y);
    ShiftTwice(old@Start(world.cells[..]), old@Start(Idx(world.width, p.x, p.y)),
               Idx(world.width, r.x, r.y), Idx(world.width, p.x, p.y), p);
    p.updatedThisFrame := true;
  }
}
