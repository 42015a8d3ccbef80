/** The shared state of the C++ engine: the particle base object and the
    flat, row-major world grid in which cell (x, y) lives at index
    y * width + x. */
module Grid {

  /** Type tags stored in `Particle.id` by the four constructors. */
  const SAND_ID: int := 1
  const STONE_ID: int := 2
  const WATER_ID: int := 3
  const FIRE_ID: int := 4

  datatype Option<T> = None | Some(value: T)

  function Abs(d: int): (r: nat) { if d < 0 then -d else d }

  /** `m` lies on the closed segment from `a` to `b`. */
  predicate Between(a: int, m: int, b: int) { (a <= m <= b) || (b <= m <= a) }

  /** Chebyshev distance: the number of diagonal-or-straight steps between two cells. */
  function Cheb(x: int, y: int, tx: int, ty: int): (r: nat) { if Abs(tx - x) < Abs(ty - y) then Abs(ty - y) else Abs(tx - x) }

  /** Direction of one grid step toward a target coordinate. */
  function Sign(d: int): (r: int) { if d > 0 then 1 else if d < 0 then -1 else 0 }

  /** `static_cast<int>` of a float: truncation toward zero. */
  function Trunc(v: real): (r: int)
    ensures 0.0 <= v ==> 0 <= r && r as real <= v < r as real + 1.0
    ensures v < 0.0 ==> r <= 0 && r as real - 1.0 < v <= r as real
  {
    if v >= 0.0 then v.Floor else -((-v).Floor)
  }

  /** Truncation is symmetric about zero, unlike Dafny's `.Floor`. */
  lemma TruncNegate(v: real)
    ensures Trunc(-v) == -Trunc(v)
  {
    if v > 0.0 {
      assert -v < 0.0;
      assert Trunc(-v) == -((v).Floor);
    }
  }

  /** Adding a non-negative whole number before truncating is the same as
      adding it afterwards: `static_cast<int>(x + v) == x + static_cast<int>(v)`. */
  lemma TruncShift(x: int, v: real)
    requires 0 <= x && 0.0 <= v
    ensures Trunc(x as real + v) == x + Trunc(v)
  {
    var k := Trunc(v);
    assert k as real <= v < k as real + 1.0;
    assert (x + k) as real <= x as real + v < (x + k) as real + 1.0;
  }

  /** The bounds test of `FireParticle::inBounds`. */
  predicate InBounds(w: int, h: int, x: int, y: int)
  {
    0 <= x < w && 0 <= y < h
  }

  /** The flat index `y * (WIDTH / PARTICLE_SIZE) + x`. */
  function Idx(w: int, x: int, y: int): (i: int) { y * w + x }

  lemma IdxInRange(w: int, h: int, x: int, y: int)
    requires InBounds(w, h, x, y)
    ensures 0 <= Idx(w, x, y) < w * h
  {
    assert 0 <= y * w by { MulNonneg(y, w); }
    assert (y + 1) * w <= h * w by { MulMono(y + 1, h, w); }
  }

  lemma MulNonneg(a: int, b: int)
    requires 0 <= a && 0 <= b
    ensures 0 <= a * b
  {
  }

  lemma MulMono(a: int, b: int, c: int)
    requires a <= b && 0 <= c
    ensures a * c <= b * c
  {
    assert b * c - a * c == (b - a) * c;
    MulNonneg(b - a, c);
  }

  /** Two in-bounds cells share a flat index only if they are the same cell. */
  lemma {:induction false} IdxInjective(w: int, h: int, x1: int, y1: int, x2: int, y2: int)
    requires InBounds(w, h, x1, y1) && InBounds(w, h, x2, y2)
    requires Idx(w, x1, y1) == Idx(w, x2, y2)
    ensures x1 == x2 && y1 == y2
  {
    if y1 < y2 {
      MulMono(y1 + 1, y2, w);
      assert false;
    } else if y2 < y1 {
      MulMono(y2 + 1, y1, w);
      assert false;
    }
  }

  /** The flat index decodes back to the cell: row by division, column by remainder. */
  lemma IdxDecode(w: int, h: int, x: int, y: int)
    requires InBounds(w, h, x, y)
    ensures Idx(w, x, y) / w == y && Idx(w, x, y) % w == x
  {
    var n := Idx(w, x, y);
    IdxInRange(w, h, x, y);
    var q, r := n / w, n % w;
    assert n == q * w + r && 0 <= r < w;
    assert 0 <= q by {
      if q < 0 { MulMono(q, -1, w); assert false; }
    }
    assert q < h by {
      if q >= h { MulMono(h, q, w); assert false; }
    }
    IdxInjective(w, h, r, q, x, y);
  }

  /** The grid after the occupant of `from` was moved to `to`: the source
      always nulls the old cell first and then stores the particle. */
  function Shift(g: seq<Particle?>, from: int, to: int, p: Particle): (g1: seq<Particle?>)
    requires 0 <= from < |g| && 0 <= to < |g|
  {
    g[from := null][to := p]
  }

  /** A move of `p` into an empty cell (or onto its own cell) keeps every
      particle and every empty cell: the grid is a permutation of itself. */
  lemma ShiftPermutes(g: seq<Particle?>, from: int, to: int, p: Particle)
    requires 0 <= from < |g| && 0 <= to < |g|
    requires g[from] == p && (to == from || g[to] == null)
    ensures multiset(Shift(g, from, to, p)) == multiset(g)
  {
    if to != from {
      assert Shift(g, from, to, p) == g[from := g[to]][to := g[from]];
    } else {
      assert Shift(g, from, to, p) == g;
    }
  }

  /** Two moves of the same particle compose into one. */
  lemma ShiftTwice(g: seq<Particle?>, a: int, b: int, c: int, p: Particle)
    requires 0 <= a < |g| && 0 <= b < |g| && 0 <= c < |g|
    requires b == a || g[b] == null
    ensures Shift(Shift(g, a, b, p), b, c, p) == Shift(g, a, c, p)
  {
  }

  /** Two particles trading cells keep every particle and every empty cell. */
  lemma SwapPermutes(g: seq<Particle?>, a: int, b: int)
    requires 0 <= a < |g| && 0 <= b < |g|
    ensures multiset(g[a := g[b]][b := g[a]]) == multiset(g)
  {
  }

  /** The particles a grid holds. */
  ghost function Members(g: seq<Particle?>): (m: set<Particle>)
  {
    set i | 0 <= i < |g| && g[i] != null :: g[i]
  }

  /** After two moves of `p`, whatever a cell holds was on the grid before. */
  lemma {:induction false} MovedStillMember(g0: seq<Particle?>, a: int, b: int, c: int, p: Particle, j: int)
    requires 0 <= a < |g0| && 0 <= b < |g0| && 0 <= c < |g0| && 0 <= j < |g0| && g0[a] == p
    ensures var g2 := Shift(Shift(g0, a, b, p), b, c, p);
      g2[j] != null ==> g2[j] in Members(g0)
  {
    var g2 := Shift(Shift(g0, a, b, p), b, c, p);
    if g2[j] == p {
      assert g0[a] in Members(g0);
    } else if g2[j] != null {
      assert g2[j] == g0[j];
      assert g0[j] in Members(g0);
    }
  }

  /** The C++ `Particle` base object: type tag, position, velocity and the
      per-frame marker. Colour is left out. */
  class Particle {
    const id: int
    var x: int
    var y: int
    var vx: real
    var vy: real
    var updatedThisFrame: bool

    constructor (id: int, x: int, y: int)
      ensures this.id == id && this.x == x && this.y == y
      ensures vx == 0.0 && vy == 0.0
    {
      this.id := id;
      this.x := x;
      this.y := y;
      vx := 0.0;
      vy := 0.0;
      updatedThisFrame := false;
    }
  }

  /** The world: `worldParticleData` with its dimensions in cells and the
      per-update gravity increment `GRAVITY / 50`. */
  class World {
    const width: int
    const height: int
    const gravity: real
    const cells: array<Particle?>

    /** Grid/position agreement: every occupant sits in bounds at the cell
        its own position indexes. This also makes every particle occupy at
        most one cell. */
    ghost predicate Valid()
      reads cells, cells[..]
    {
      0 < width && 0 < height && 0.0 < gravity && cells.Length == width * height &&
      forall i :: 0 <= i < cells.Length && cells[i] != null ==>
        InBounds(width, height, cells[i].x, cells[i].y) && Idx(width, cells[i].x, cells[i].y) == i
    }

    /** `p` is the occupant of the cell its position names. */
    ghost predicate OnGrid(p: Particle)
      reads cells, p
    {
      InBounds(width, height, p.x, p.y) && 0 <= Idx(width, p.x, p.y) < cells.Length &&
      cells[Idx(width, p.x, p.y)] == p
    }

    /** The set of particles currently on the grid. */
    ghost function Occupants(): (o: set<Particle>)
      reads cells
    {
      Members(cells[..])
    }

    constructor (w: int, h: int, g: real)
      requires 0 < w && 0 < h && 0.0 < g
      ensures Valid() && fresh(cells)
      ensures width == w && height == h && gravity == g
      ensures forall i :: 0 <= i < cells.Length ==> cells[i] == null
    {
      width, height, gravity := w, h, g;
      MulNonneg(w, h);
      cells := new Particle?[w * h](_ => null);
    }

    /** Occupant lookup at an in-bounds cell. */
    function At(x: int, y: int): (r: Particle?)
      requires Valid() && InBounds(width, height, x, y)
      reads cells, cells[..]
      ensures r != null ==> r.x == x && r.y == y
    {
      IdxInRange(width, height, x, y);
      var q := cells[Idx(width, x, y)];
      if q != null then
        IdxInjective(width, height, q.x, q.y, x, y);
        q
      else
        null
    }

    /** The move used by every rule: null the old cell, store the particle
        in the new cell, then update its position. */
    method Move(p: Particle, nx: int, ny: int)
      requires Valid() && OnGrid(p)
      requires InBounds(width, height, nx, ny) && 0 <= Idx(width, nx, ny) < cells.Length
      requires cells[Idx(width, nx, ny)] == null || (nx == p.x && ny == p.y)
      modifies cells, p
      ensures Valid() && OnGrid(p)
      ensures p.x == nx && p.y == ny
      ensures cells[..] == Shift(old(cells[..]), old(Idx(width, p.x, p.y)), Idx(width, nx, ny), p)
      ensures p.vx == old(p.vx) && p.vy == old(p.vy) && p.updatedThisFrame == old(p.updatedThisFrame)
    {
      IdxInRange(width, height, nx, ny);
      ghost var g0 := cells[..];
      var from, to := Idx(width, p.x, p.y), Idx(width, nx, ny);
      assert forall i :: 0 <= i < cells.Length && i != from && g0[i] != null ==> g0[i] != p;
      cells[from] := null;
      cells[to] := p;
      p.x := nx;
      p.y := ny;
      assert cells[..] == g0[from := null][to := p];
      forall i | 0 <= i < cells.Length && cells[i] != null
        ensures InBounds(width, height, cells[i].x, cells[i].y) && Idx(width, cells[i].x, cells[i].y) == i
      {
        if i != to {
          assert cells[i] == g0[i] && g0[i] != p;
        }
      }
    }

    /** Two particles trade cells: each takes the other's position. */
    method Swap(p: Particle, q: Particle)
      requires Valid() && OnGrid(p) && OnGrid(q) && p != q
      modifies cells, p, q
      ensures Valid() && OnGrid(p) && OnGrid(q)
      ensures p.x == old(q.x) && p.y == old(q.y) && q.x == old(p.x) && q.y == old(p.y)
      ensures cells[..] == old(cells[..])[old(Idx(width, p.x, p.y)) := q][old(Idx(width, q.x, q.y)) := p]
      ensures p.vx == old(p.vx) && p.vy == old(p.vy) && p.updatedThisFrame == old(p.updatedThisFrame)
      ensures q.vx == old(q.vx) && q.vy == old(q.vy) && q.updatedThisFrame == old(q.updatedThisFrame)
    {
      ghost var g0 := cells[..];
      var a, b := Idx(width, p.x, p.y), Idx(width, q.x, q.y);
      assert forall i :: 0 <= i < cells.Length && i != a && i != b && g0[i] != null ==> g0[i] != p && g0[i] != q;
      cells[a] := q;
      cells[b] := p;
      var qx, qy := q.x, q.y;
      q.x, q.y := p.x, p.y;
      p.x, p.y := qx, qy;
      assert cells[..] == g0[a := q][b := p];
      forall i | 0 <= i < cells.Length && cells[i] != null
        ensures InBounds(width, height, cells[i].x, cells[i].y) && Idx(width, cells[i].x, cells[i].y) == i
      {
        if i != a && i != b {
          assert cells[i] == g0[i] && g0[i] != p && g0[i] != q;
        }
      }
    }
  }
}
