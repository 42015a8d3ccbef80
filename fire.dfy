/** `FireParticle` (src/fireParticle.h): a one-in-ten chance to burn out,
    otherwise a random nudge to the velocity, one jump to the truncated
    target, and the ignition of water at the target and two jumps ahead.
    The three `rand()` draws of an update are the parameters `deathRoll`,
    `xRoll` and `yRoll`. */
module FireParticle {
  import opened Grid

  /** The constructor: id 4, the given position, zero velocity. */
  method Create(x: int, y: int) returns (p: Particle)
    ensures fresh(p)
    ensures p.id == FIRE_ID && p.x == x && p.y == y && p.vx == 0.0 && p.vy == 0.0
  {
    p := new Particle(FIRE_ID, x, y);
  }

  /** `static_cast<float>(rand() % 3 - 1) * 0.5f`: one of -0.5, 0 and 0.5. */
  function Delta(roll: nat): (d: real)
    ensures d == -0.5 || d == 0.0 || d == 0.5
    ensures d == 0.0 <==> roll % 3 == 1
  {
    ((roll % 3) - 1) as real * 0.5
  }

  /** `rand() % 10 == 0`: the fire burns out. */
  predicate Dies(roll: nat)
  {
    roll % 10 == 0
  }

  /** Where the jump of lines 31-53 left the particle: its cell and
      velocity, whether it moved, and the cell of the water it set alight. */
  datatype Jump = Jump(x: int, y: int, vx: real, vy: real, moved: bool, burned: Option<int>)

  /** The jump from (x, y) with the nudged velocity (vx, vy): into an empty
      target, or setting water at the target alight, or nothing when the
      target holds anything else; an out-of-bounds target stops the
      particle instead. */
  function JumpOf(g: seq<Particle?>, w: int, h: int, x: int, y: int, vx: real, vy: real): (j: Jump)
    requires 0 < w && 0 < h && |g| == w * h && InBounds(w, h, x, y)
    ensures InBounds(w, h, j.x, j.y)
  {
    var nx, ny := x + Trunc(vx), y + Trunc(vy);
    if InBounds(w, h, nx, ny) then
      IdxInRange(w, h, nx, ny);
      var other := g[Idx(w, nx, ny)];
      if other == null then Jump(nx, ny, vx, vy, true, None)
      else if other.id == WATER_ID then Jump(x, y, vx, vy, false, Some(Idx(w, nx, ny)))
      else Jump(x, y, vx, vy, false, None)
    else
      Jump(x, y, 0.0, 0.0, false, None)
  }

  /** The grid after the jump, before any ignition: `p` moved when it moved. */
  function Jumped(g: seq<Particle?>, w: int, h: int, p: Particle, x: int, y: int, j: Jump): (g1: seq<Particle?>)
    requires 0 < w && 0 < h && |g| == w * h && InBounds(w, h, x, y) && InBounds(w, h, j.x, j.y)
    ensures |g1| == |g|
    ensures forall i :: 0 <= i < |g| && i != Idx(w, x, y) && i != Idx(w, j.x, j.y) ==> g1[i] == g[i]
    ensures !j.moved ==> g1 == g
  {
    IdxInRange(w, h, x, y);
    IdxInRange(w, h, j.x, j.y);
    if j.moved then Shift(g, Idx(w, x, y), Idx(w, j.x, j.y), p) else g
  }

  /** The look-ahead cell `position + 2 * trunc(velocity)` of lines 56-57, if in bounds. */
  function AheadCell(w: int, h: int, x: int, y: int, vx: real, vy: real): (c: Option<int>)
    requires 0 < w && 0 < h
    ensures c.Some? <==> InBounds(w, h, x + 2 * Trunc(vx), y + 2 * Trunc(vy))
    ensures c.Some? ==> c.value == Idx(w, x + 2 * Trunc(vx), y + 2 * Trunc(vy)) && 0 <= c.value < w * h
  {
    var ax, ay := x + 2 * Trunc(vx), y + 2 * Trunc(vy);
    if InBounds(w, h, ax, ay) then IdxInRange(w, h, ax, ay); Some(Idx(w, ax, ay)) else None
  }

  /** The look-ahead cell of grid `g` when it holds water (lines 59-65). */
  function WaterAhead(g: seq<Particle?>, w: int, h: int, x: int, y: int, vx: real, vy: real): (c: Option<int>)
    requires 0 < w && 0 < h && |g| == w * h
    ensures c.Some? ==> 0 <= c.value < |g| && g[c.value] != null && g[c.value].id == WATER_ID
    ensures c.Some? ==> c == AheadCell(w, h, x, y, vx, vy)
    ensures var a := AheadCell(w, h, x, y, vx, vy);
      a.Some? && g[a.value] != null && g[a.value].id == WATER_ID ==> c == a
  {
    match AheadCell(w, h, x, y, vx, vy)
    case None => None
    case Some(c) => if g[c] != null && g[c].id == WATER_ID then Some(c) else None
  }

  /** What the look-ahead sets alight, seen from the grid `g1` after the
      jump but before its ignition: the cell the jump set alight holds fire
      by then, so it is not set alight again. */
  function AheadBurn(g1: seq<Particle?>, w: int, h: int, j: Jump): (b: Option<int>)
    requires 0 < w && 0 < h && |g1| == w * h
    ensures b.Some? ==> 0 <= b.value < |g1| && g1[b.value] != null && g1[b.value].id == WATER_ID
    ensures b.Some? ==> b != j.burned
    ensures b.Some? ==> b == AheadCell(w, h, j.x, j.y, j.vx, j.vy)
    ensures var a := AheadCell(w, h, j.x, j.y, j.vx, j.vy);
      a.Some? && g1[a.value] != null && g1[a.value].id == WATER_ID && a != j.burned ==> b == a
  {
    var c := WaterAhead(g1, w, h, j.x, j.y, j.vx, j.vy);
    if c == j.burned then None else c
  }

  /** The outcome of one update. */
  datatype Plan = BurnsOut | Lives(jump: Jump, ahead: Option<int>)

  /** One update of fire particle `p` at (x, y) with velocity (vx, vy). */
  function Step(g: seq<Particle?>, w: int, h: int, p: Particle, x: int, y: int, vx: real, vy: real,
                deathRoll: nat, xRoll: nat, yRoll: nat): (pl: Plan)
    requires 0 < w && 0 < h && |g| == w * h && InBounds(w, h, x, y)
  {
    if Dies(deathRoll) then BurnsOut
    else
      var j := JumpOf(g, w, h, x, y, vx + Delta(xRoll), vy + Delta(yRoll));
      Lives(j, AheadBurn(Jumped(g, w, h, p, x, y, j), w, h, j))
  }

  /** A cell replaced by a new fire particle, when there is one to replace. */
  function Ignited(g: seq<Particle?>, c: Option<int>, q: Particle?): (g1: seq<Particle?>)
    ensures |g1| == |g|
    ensures c.Some? && 0 <= c.value < |g| ==> g1[c.value] == q
    ensures forall i :: 0 <= i < |g| && (c.None? || i != c.value) ==> g1[i] == g[i]
  {
    if c.Some? && 0 <= c.value < |g| then g[c.value := q] else g
  }

  /** The set-alight grid seen through the look-ahead: the burned cell now
      holds fire, so the look-ahead finds water exactly where `AheadBurn` says. */
  lemma AheadSkipsIgnited(g1: seq<Particle?>, w: int, h: int, j: Jump, q: Particle?)
    requires 0 < w && 0 < h && |g1| == w * h
    requires j.burned.Some? ==> q != null && q.id == FIRE_ID
    ensures WaterAhead(Ignited(g1, j.burned, q), w, h, j.x, j.y, j.vx, j.vy) == AheadBurn(g1, w, h, j)
  {
  }

  /** Burning out empties exactly one cell. */
  lemma BurnOutEmptiesOne(g: seq<Particle?>, s: int)
    requires 0 <= s < |g| && g[s] != null
    ensures multiset(g[s := null])[null] == multiset(g)[null] + 1
    ensures forall i :: 0 <= i < |g| && i != s ==> g[s := null][i] == g[i]
  {
  }

  /** The kind of cell each branch of the jump leaves the particle on: a
      move lands on the target cell, which was empty; a burn happens at the
      target, which held water; otherwise the particle stays, and an
      out-of-bounds target also stops it. */
  lemma JumpRule(g: seq<Particle?>, w: int, h: int, p: Particle, x: int, y: int, vx: real, vy: real)
    requires 0 < w && 0 < h && |g| == w * h && InBounds(w, h, x, y)
    requires 0 <= Idx(w, x, y) < |g| && g[Idx(w, x, y)] == p && p.id == FIRE_ID
    ensures var j := JumpOf(g, w, h, x, y, vx, vy);
      var tx, ty := x + Trunc(vx), y + Trunc(vy);
      && (j.moved ==> j.x == tx && j.y == ty && (tx, ty) != (x, y) &&
                      0 <= Idx(w, tx, ty) < |g| && g[Idx(w, tx, ty)] == null)
      && (!j.moved ==> j.x == x && j.y == y)
      && (j.burned.Some? ==> !j.moved && InBounds(w, h, tx, ty) && j.burned.value == Idx(w, tx, ty) &&
                             0 <= j.burned.value < |g| && g[j.burned.value] != null && g[j.burned.value].id == WATER_ID)
      && (InBounds(w, h, tx, ty) <==> (j.vx, j.vy) == (vx, vy))
      && (!InBounds(w, h, tx, ty) ==> j == Jump(x, y, 0.0, 0.0, false, None))
      && (InBounds(w, h, tx, ty) ==>
            && 0 <= Idx(w, tx, ty) < |g|
            && (g[Idx(w, tx, ty)] == null ==> j.moved && j.burned.None?)
            && (g[Idx(w, tx, ty)] != null && g[Idx(w, tx, ty)].id == WATER_ID ==> j.burned == Some(Idx(w, tx, ty)))
            && (g[Idx(w, tx, ty)] != null && g[Idx(w, tx, ty)].id != WATER_ID ==> !j.moved && j.burned.None?))
  {
    var tx, ty := x + Trunc(vx), y + Trunc(vy);
    IdxInRange(w, h, x, y);
    if InBounds(w, h, tx, ty) {
      IdxInRange(w, h, tx, ty);
      if (tx, ty) == (x, y) {
        assert g[Idx(w, tx, ty)] == p;
      }
    } else {
      assert vx != 0.0 || vy != 0.0;
    }
  }

  /** Fire changes only water: neither its own cell, nor the same cell twice,
      and both cells it sets alight held water before the update. */
  lemma BurnsOnlyWater(g: seq<Particle?>, w: int, h: int, p: Particle, x: int, y: int, vx: real, vy: real,
                       deathRoll: nat, xRoll: nat, yRoll: nat)
    requires 0 < w && 0 < h && |g| == w * h && InBounds(w, h, x, y)
    requires 0 <= Idx(w, x, y) < |g| && g[Idx(w, x, y)] == p && p.id == FIRE_ID
    ensures var pl := Step(g, w, h, p, x, y, vx, vy, deathRoll, xRoll, yRoll);
      pl.Lives? ==>
        var j := pl.jump;
        0 <= Idx(w, j.x, j.y) < |g| &&
        (j.burned.Some? ==> 0 <= j.burned.value < |g| && j.burned.value != Idx(w, j.x, j.y) &&
                            g[j.burned.value] != null && g[j.burned.value].id == WATER_ID) &&
        (pl.ahead.Some? ==> 0 <= pl.ahead.value < |g| && pl.ahead.value != Idx(w, j.x, j.y) &&
                            pl.ahead != j.burned &&
                            g[pl.ahead.value] != null && g[pl.ahead.value].id == WATER_ID)
  {
    var pl := Step(g, w, h, p, x, y, vx, vy, deathRoll, xRoll, yRoll);
    if pl.Lives? {
      var j := pl.jump;
      JumpRule(g, w, h, p, x, y, vx + Delta(xRoll), vy + Delta(yRoll));
      IdxInRange(w, h, x, y);
      IdxInRange(w, h, j.x, j.y);
      var g1 := Jumped(g, w, h, p, x, y, j);
      assert g1[Idx(w, j.x, j.y)] == p;
      if pl.ahead.Some? {
        var c := pl.ahead.value;
        assert g1[c] != null && g1[c].id == WATER_ID;
        if j.moved {
          assert c != Idx(w, x, y);
          assert g1[c] == g[c];
        }
      }
    }
  }

  /** A target off the grid stops the fire where it stands, and the
      look-ahead of a stopped fire is its own cell, so nothing burns. */
  lemma StopsAtEdge(g: seq<Particle?>, w: int, h: int, p: Particle, x: int, y: int, vx: real, vy: real,
                    deathRoll: nat, xRoll: nat, yRoll: nat)
    requires 0 < w && 0 < h && |g| == w * h && InBounds(w, h, x, y)
    requires 0 <= Idx(w, x, y) < |g| && g[Idx(w, x, y)] == p && p.id == FIRE_ID
    requires !Dies(deathRoll)
    requires !InBounds(w, h, x + Trunc(vx + Delta(xRoll)), y + Trunc(vy + Delta(yRoll)))
    ensures Step(g, w, h, p, x, y, vx, vy, deathRoll, xRoll, yRoll) == Lives(Jump(x, y, 0.0, 0.0, false, None), None)
  {
    JumpRule(g, w, h, p, x, y, vx + Delta(xRoll), vy + Delta(yRoll));
    BurnsOnlyWater(g, w, h, p, x, y, vx, vy, deathRoll, xRoll, yRoll);
    assert AheadCell(w, h, x, y, 0.0, 0.0) == Some(Idx(w, x, y));
  }

  /** A living fire keeps the number of empty cells: it moves only into an
      empty cell, and each new fire particle replaces a water particle. */
  lemma LivingKeepsEmptyCount(g: seq<Particle?>, w: int, h: int, p: Particle, x: int, y: int, vx: real, vy: real,
                              deathRoll: nat, xRoll: nat, yRoll: nat, q1: Particle, q2: Particle)
    requires 0 < w && 0 < h && |g| == w * h && InBounds(w, h, x, y)
    requires 0 <= Idx(w, x, y) < |g| && g[Idx(w, x, y)] == p && p.id == FIRE_ID
    requires !Dies(deathRoll)
    ensures var pl := Step(g, w, h, p, x, y, vx, vy, deathRoll, xRoll, yRoll);
      var g2 := Ignited(Ignited(Jumped(g, w, h, p, x, y, pl.jump), pl.jump.burned, q1), pl.ahead, q2);
      multiset(g2)[null] == multiset(g)[null]
  {
    var pl := Step(g, w, h, p, x, y, vx, vy, deathRoll, xRoll, yRoll);
    var j := pl.jump;
    JumpRule(g, w, h, p, x, y, vx + Delta(xRoll), vy + Delta(yRoll));
    IdxInRange(w, h, j.x, j.y);
    var g1 := Jumped(g, w, h, p, x, y, j);
    if j.moved {
      ShiftPermutes(g, Idx(w, x, y), Idx(w, j.x, j.y), p);
    }
    assert multiset(g1)[null] == multiset(g)[null];
    assert j.burned.Some? ==> g1 == g;
    IgnitedKeepsEmptyCount(g1, j.burned, q1);
    IgnitedKeepsEmptyCount(Ignited(g1, j.burned, q1), pl.ahead, q2);
  }

  /** Putting a fire particle in place of an occupant keeps the number of empty cells. */
  lemma IgnitedKeepsEmptyCount(g: seq<Particle?>, c: Option<int>, q: Particle)
    requires c.Some? ==> 0 <= c.value < |g| && g[c.value] != null
    ensures multiset(Ignited(g, c, q))[null] == multiset(g)[null]
  {
    if c.Some? {
      assert multiset(g[c.value := q]) == multiset(g) - multiset{g[c.value]} + multiset{q};
    }
  }

  /** A new fire particle takes over an in-bounds cell: the occupant is
      dropped (`delete`) and a fresh `FireParticle` at that cell stored. */
  method Ignite(world: World, x: int, y: int) returns (q: Particle)
    requires world.Valid() && InBounds(world.width, world.height, x, y)
    modifies world.cells
    ensures world.Valid()
    ensures fresh(q) && q.id == FIRE_ID && q.x == x && q.y == y
    ensures q.vx == 0.0 && q.vy == 0.0
    ensures 0 <= Idx(world.width, x, y) < world.cells.Length
    ensures world.cells[..] == old(world.cells[..])[Idx(world.width, x, y) := q]
  {
    IdxInRange(world.width, world.height, x, y);
    q := Create(x, y);
    world.cells[Idx(world.width, x, y)] := q;
  }

  /** Lines 27-53: nudge the velocity, then move into an empty target, set
      water at the target alight, or stop at the edge of the world. */
  method Leap(world: World, p: Particle, xRoll: nat, yRoll: nat) returns (ghost j: Jump, ghost q: Particle?)
    requires world.Valid() && world.OnGrid(p) && p.id == FIRE_ID
    modifies world.cells, p
    ensures world.Valid() && world.OnGrid(p)
    ensures j == JumpOf(old(world.cells[..]), world.width, world.height, old(p.x), old(p.y),
                        old(p.vx) + Delta(xRoll), old(p.vy) + Delta(yRoll))
    ensures p.x == j.x && p.y == j.y && p.vx == j.vx && p.vy == j.vy
    ensures p.updatedThisFrame == old(p.updatedThisFrame)
    ensures (q != null <==> j.burned.Some?) && (q != null ==> fresh(q) && q.id == FIRE_ID)
    ensures q != null ==> InBounds(world.width, world.height, q.x, q.y) && j.burned == Some(Idx(world.width, q.x, q.y))
    ensures q != null ==> q.vx == 0.0 && q.vy == 0.0
    ensures world.cells[..] == Ignited(Jumped(old(world.cells[..]), world.width, world.height, p, old(p.x), old(p.y), j),
                                       j.burned, q)
  {
    var w, h := world.width, world.height;
    p.vx := p.vx + Delta(xRoll);
    p.vy := p.vy + Delta(yRoll);
    var nx, ny := p.x + Trunc(p.vx), p.y + Trunc(p.vy);
    q := null;
    j := JumpOf(old(world.cells[..]), w, h, old(p.x), old(p.y), p.vx, p.vy);
    if InBounds(w, h, nx, ny) {
      IdxInRange(w, h, nx, ny);
      var other := world.cells[Idx(w, nx, ny)];
      if other == null {
        world.Move(p, nx, ny);
      } else if other.id == WATER_ID {
        q := Ignite(world, nx, ny);
      }
    } else {
      p.vx := 0.0;
      p.vy := 0.0;
    }
  }

  /** Lines 55-66: set alight the water two jumps ahead, if any. */
  method LookAhead(world: World, p: Particle) returns (ghost q: Particle?)
    requires world.Valid() && world.OnGrid(p) && p.id == FIRE_ID
    modifies world.cells
    ensures world.Valid() && world.OnGrid(p)
    ensures var c := WaterAhead(old(world.cells[..]), world.width, world.height, p.x, p.y, p.vx, p.vy);
      (q != null <==> c.Some?) && (q != null ==> fresh(q) && q.id == FIRE_ID) &&
      world.cells[..] == Ignited(old(world.cells[..]), c, q)
    ensures q != null ==>
      InBounds(world.width, world.height, q.x, q.y) &&
      WaterAhead(old(world.cells[..]), world.width, world.height, p.x, p.y, p.vx, p.vy) == Some(Idx(world.width, q.x, q.y))
    ensures q != null ==> q.vx == 0.0 && q.vy == 0.0
  {
    var w, h := world.width, world.height;
    var ax, ay := p.x + 2 * Trunc(p.vx), p.y + 2 * Trunc(p.vy);
    q := null;
    if InBounds(w, h, ax, ay) {
      IdxInRange(w, h, ax, ay);
      var other := world.cells[Idx(w, ax, ay)];
      if other != null && other.id == WATER_ID {
        q := Ignite(world, ax, ay);
      }
    }
  }

  /** `FireParticle::update`: burn out, or jump and set water alight; the
      particle is marked updated either way. */
  method Update(world: World, p: Particle, deathRoll: nat, xRoll: nat, yRoll: nat)
    returns (ghost q1: Particle?, ghost q2: Particle?)
    requires world.Valid() && world.OnGrid(p) && p.id == FIRE_ID
    modifies world.cells, p
    ensures world.Valid() && p.updatedThisFrame
    ensures var pl := Step(old(world.cells[..]), world.width, world.height, p, old(p.x), old(p.y),
                           old(p.vx), old(p.vy), deathRoll, xRoll, yRoll);
      && (pl.BurnsOut? ==>
            world.cells[..] == old(world.cells[..])[old(Idx(world.width, p.x, p.y)) := null] &&
            p.x == old(p.x) && p.y == old(p.y) && p.vx == old(p.vx) && p.vy == old(p.vy))
      && (pl.Lives? ==>
            world.OnGrid(p) &&
            p.x == pl.jump.x && p.y == pl.jump.y && p.vx == pl.jump.vx && p.vy == pl.jump.vy &&
            world.cells[..] == Ignited(Ignited(Jumped(old(world.cells[..]), world.width, world.height, p,
                                                      old(p.x), old(p.y), pl.jump), pl.jump.burned, q1), pl.ahead, q2))
    ensures var pl := Step(old(world.cells[..]), world.width, world.height, p, old(p.x), old(p.y),
                           old(p.vx), old(p.vy), deathRoll, xRoll, yRoll);
      && (pl.BurnsOut? ==> q1 == null && q2 == null)
      && (pl.Lives? ==> (q1 != null <==> pl.jump.burned.Some?) && (q2 != null <==> pl.ahead.Some?))
      && (q1 != null ==> pl.Lives? && InBounds(world.width, world.height, q1.x, q1.y) &&
                         pl.jump.burned == Some(Idx(world.width, q1.x, q1.y)))
      && (q2 != null ==> pl.Lives? && InBounds(world.width, world.height, q2.x, q2.y) &&
                         pl.ahead == Some(Idx(world.width, q2.x, q2.y)))
    ensures q1 != null ==> fresh(q1) && q1.id == FIRE_ID && q1.vx == 0.0 && q1.vy == 0.0
    ensures q2 != null ==> fresh(q2) && q2.id == FIRE_ID && q2.vx == 0.0 && q2.vy == 0.0
  {
    q1, q2 := null, null;
    if deathRoll % 10 == 0 {
      world.cells[Idx(world.width, p.x, p.y)] := null;
    } else {
      label Start:
      ghost var j;
      j, q1 := Leap(world, p, xRoll, yRoll);
      label Leapt:
      q2 := LookAhead(world, p);
      AheadSkipsIgnited(Jumped(old@Start(world.cells[..]), world.width, world.height, p, old@Start(p.x), old@Start(p.y), j),
                        world.width, world.height, j, q1);
    }
    p.updatedThisFrame := true;
  }
}
