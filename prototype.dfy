/** The Python prototype (python_src/main.py): a grid of rows by columns
    holding `Sand` and `Stone` objects or 0, a one-step sand fall, the
    shuffled update pass, and the brush controls. The grid is
    `grid[y][x]` with 108 rows and 192 columns. */
module Prototype {
  import opened Grid

  /** `np.zeros((gridWidth, gridHeight))` with `gridWidth, gridHeight = 108, 192`:
      108 rows (y) by 192 columns (x). */
  const ROWS: int := 108
  const COLS: int := 192

  /** `particle_types = [Sand, Stone]`. */
  datatype Kind = Sand | Stone
  const TYPES: seq<Kind> := [Sand, Stone]

  /** A `Sand` or `Stone` object: its class and its own coordinates. */
  class Grain {
    const kind: Kind
    var x: int
    var y: int

    constructor (kind: Kind, x: int, y: int)
      ensures this.kind == kind && this.x == x && this.y == y
    {
      this.kind := kind;
      this.x := x;
      this.y := y;
    }
  }

  /** `max(1, min(brushSize, 20))` after the wheel step `brushSize += event.y`. */
  function ClampBrush(size: int, wheel: int): (r: int)
    ensures 1 <= r <= 20
    ensures 1 <= size + wheel <= 20 <==> r == size + wheel
    ensures size + wheel < 1 ==> r == 1
    ensures size + wheel > 20 ==> r == 20
  {
    var s := size + wheel;
    if s < 1 then 1 else if s > 20 then 20 else s
  }

  /** A second clamp with no wheel movement changes nothing. */
  lemma ClampBrushIdempotent(size: int, wheel: int)
    ensures ClampBrush(ClampBrush(size, wheel), 0) == ClampBrush(size, wheel)
  {
  }

  /** Tab: `(current_particle_type_index + 1) % len(particle_types)`; Python's
      `%` with a positive divisor never returns a negative value, as Dafny's. */
  function NextType(i: int): (r: int)
    ensures 0 <= r < |TYPES|
    ensures 0 <= i < |TYPES| - 1 ==> r == i + 1
    ensures i == |TYPES| - 1 ==> r == 0
  {
    (i + 1) % |TYPES|
  }

  /** With two types, two presses of Tab come back to the same type. */
  lemma NextTypeTwice(i: int)
    requires 0 <= i < |TYPES|
    ensures NextType(NextType(i)) == i
  {
  }

  /** The disc test of the brush: inside the half-open square
      `[mx - b, mx + b) x [my - b, my + b)` and within radius `b`. */
  predicate InBrush(mx: int, my: int, b: int, x: int, y: int)
  {
    mx - b <= x < mx + b && my - b <= y < my + b &&
    (x - mx) * (x - mx) + (y - my) * (y - my) <= b * b
  }

  /** The `range` bounds make the brush lopsided: the cell `b` to the right
      of the centre is within the radius but never painted, while the cell
      `b` to the left is. */
  lemma BrushLopsided(mx: int, my: int, b: int)
    requires 1 <= b
    ensures InBrush(mx, my, b, mx - b, my) && !InBrush(mx, my, b, mx + b, my)
  {
  }

  /** The shuffled offsets are a reordering of 0, -1 and 1. */
  lemma OffsetsInRange(order: seq<int>)
    requires multiset(order) == multiset{0, -1, 1}
    ensures forall i :: 0 <= i < |order| ==> -1 <= order[i] <= 1
    ensures -1 in order && 0 in order && 1 in order
  {
    forall i | 0 <= i < |order| ensures -1 <= order[i] <= 1 {
      assert order[i] in multiset(order);
    }
  }

  /** `available_positions`: the shuffled candidates `(x + d, y + 1)`, in
      order, whose cell passes the test; `open[d + 1]` is the outcome of the
      test for offset `d`. */
  function Available(x: int, y: int, order: seq<int>, open: seq<bool>): (r: seq<(int, int)>)
    requires |open| == 3 && forall i :: 0 <= i < |order| ==> -1 <= order[i] <= 1
    ensures |r| <= |order|
  {
    if order == [] then []
    else (if open[order[0] + 1] then [(x + order[0], y + 1)] else []) + Available(x, y, order[1..], open)
  }

  /** Every available position is one row down, at one of the shuffled
      offsets whose test passed. */
  lemma {:induction false} AvailableSound(x: int, y: int, order: seq<int>, open: seq<bool>)
    requires |open| == 3 && forall i :: 0 <= i < |order| ==> -1 <= order[i] <= 1
    ensures forall i :: 0 <= i < |Available(x, y, order, open)| ==>
      Available(x, y, order, open)[i].1 == y + 1 && -1 <= Available(x, y, order, open)[i].0 - x <= 1 &&
      Available(x, y, order, open)[i].0 - x in order && open[Available(x, y, order, open)[i].0 - x + 1]
  {
    if order != [] {
      AvailableSound(x, y, order[1..], open);
      var rest := Available(x, y, order[1..], open);
      var head := if open[order[0] + 1] then [(x + order[0], y + 1)] else [];
      var r := Available(x, y, order, open);
      assert r == head + rest;
      forall i | 0 <= i < |r|
        ensures r[i].1 == y + 1 && -1 <= r[i].0 - x <= 1 && r[i].0 - x in order && open[r[i].0 - x + 1]
      {
        if i >= |head| {
          assert r[i] == rest[i - |head|];
          assert r[i].0 - x in order[1..];
        }
      }
    }
  }

  /** Every shuffled candidate whose test passed is available. */
  lemma {:induction false} AvailableComplete(x: int, y: int, order: seq<int>, open: seq<bool>)
    requires |open| == 3 && forall i :: 0 <= i < |order| ==> -1 <= order[i] <= 1
    ensures forall i :: 0 <= i < |order| && open[order[i] + 1] ==> (x + order[i], y + 1) in Available(x, y, order, open)
  {
    if order != [] {
      AvailableComplete(x, y, order[1..], open);
      var r := Available(x, y, order, open);
      var head := if open[order[0] + 1] then [(x + order[0], y + 1)] else [];
      assert r == head + Available(x, y, order[1..], open);
      forall i | 0 <= i < |order| && open[order[i] + 1] ensures (x + order[i], y + 1) in r {
        if i > 0 {
          assert order[i] == order[1..][i - 1];
        }
      }
    }
  }

  /** The position `random.choice(available_positions)` returns, written
      `pick % len(available_positions)`; there is one exactly when some
      candidate passed the test. */
  function Choice(x: int, y: int, order: seq<int>, open: seq<bool>, pick: nat): (c: Pick)
    requires |open| == 3 && multiset(order) == multiset{0, -1, 1}
    ensures c.Cell? <==> open[0] || open[1] || open[2]
    ensures c.Cell? ==> c.y == y + 1 && -1 <= c.x - x <= 1 && open[c.x - x + 1]
  {
    OffsetsInRange(order);
    AvailableSound(x, y, order, open);
    AvailableComplete(x, y, order, open);
    var a := Available(x, y, order, open);
    if a == [] then
      assert (x - 1, y + 1) !in a && (x, y + 1) !in a && (x + 1, y + 1) !in a;
      NoRoom
    else
      assert a[pick % |a|] in a;
      Cell(a[pick % |a|].0, a[pick % |a|].1)
  }

  /** A flat index of the snapshot names the cell (column, row) it decodes to. */
  lemma Decode(k: int)
    requires 0 <= k < ROWS * COLS
    ensures 0 <= k % COLS < COLS && 0 <= k / COLS < ROWS && Idx(COLS, k % COLS, k / COLS) == k
  {
  }

  /** The test of the comprehension on the flattened cells. */
  predicate OpenIn(cells: seq<Grain?>, x: int, y: int)
    requires |cells| == ROWS * COLS
  {
    0 <= x < COLS && 0 <= y < ROWS && (IdxInRange(COLS, ROWS, x, y); cells[Idx(COLS, x, y)] == null)
  }

  /** The three tests of the row below (x, y) on the flattened cells. */
  function BelowIn(cells: seq<Grain?>, x: int, y: int): (o: seq<bool>)
    requires |cells| == ROWS * COLS
    ensures |o| == 3 && forall k :: 0 <= k < 3 ==> o[k] == OpenIn(cells, x + k - 1, y + 1)
  {
    [OpenIn(cells, x - 1, y + 1), OpenIn(cells, x, y + 1), OpenIn(cells, x + 1, y + 1)]
  }

  /** `Sand.fall` on the flattened cells for the grain at (x, y): below the
      bottom row and with a candidate free, the grain moves to the chosen
      cell and its own cell becomes 0. */
  function FallIn(cells: seq<Grain?>, x: int, y: int, order: seq<int>, pick: nat): (r: seq<Grain?>)
    requires |cells| == ROWS * COLS && 0 <= x < COLS && 0 <= y < ROWS
    requires multiset(order) == multiset{0, -1, 1}
    ensures |r| == |cells|
  {
    var c := Choice(x, y, order, BelowIn(cells, x, y), pick);
    if y < ROWS - 1 && c.Cell? then
      assert OpenIn(cells, c.x, c.y);
      IdxInRange(COLS, ROWS, x, y);
      IdxInRange(COLS, ROWS, c.x, c.y);
      cells[Idx(COLS, x, y) := null][Idx(COLS, c.x, c.y) := cells[Idx(COLS, x, y)]]
    else
      cells
  }

  /** One fall: the grain stays put exactly in the bottom row or when none
      of the three cells below is free; otherwise it moves to a cell one row
      down and at most one column aside that was free, its own cell becomes
      empty, and no other cell changes. */
  lemma FallInRule(cells: seq<Grain?>, x: int, y: int, order: seq<int>, pick: nat)
    requires |cells| == ROWS * COLS && 0 <= x < COLS && 0 <= y < ROWS
    requires multiset(order) == multiset{0, -1, 1}
    ensures var c := Choice(x, y, order, BelowIn(cells, x, y), pick);
      && 0 <= Idx(COLS, x, y) < |cells|
      && (c.Cell? <==> OpenIn(cells, x - 1, y + 1) || OpenIn(cells, x, y + 1) || OpenIn(cells, x + 1, y + 1))
      && (y < ROWS - 1 && c.Cell? ==>
            && c.y == y + 1 && -1 <= c.x - x <= 1 && 0 <= c.x < COLS
            && 0 <= Idx(COLS, c.x, c.y) < |cells| && cells[Idx(COLS, c.x, c.y)] == null
            && FallIn(cells, x, y, order, pick) ==
               cells[Idx(COLS, x, y) := null][Idx(COLS, c.x, c.y) := cells[Idx(COLS, x, y)]])
      && (!(y < ROWS - 1 && c.Cell?) ==> FallIn(cells, x, y, order, pick) == cells)
  {
    IdxInRange(COLS, ROWS, x, y);
    var c := Choice(x, y, order, BelowIn(cells, x, y), pick);
    if c.Cell? {
      assert OpenIn(cells, c.x, c.y);
      IdxInRange(COLS, ROWS, c.x, c.y);
    }
  }

  /** The first cell that holds `g`, if any. */
  function Find(cells: seq<Grain?>, g: Grain): (k: Option<nat>)
    ensures k.Some? ==> k.value < |cells| && cells[k.value] == g
    ensures k.None? ==> g !in cells
  {
    if cells == [] then None
    else if cells[0] == g then Some(0)
    else
      match Find(cells[1..], g)
      case None => (assert cells == [cells[0]] + cells[1..]; None)
      case Some(i) => Some(i + 1)
  }

  /** The random draws of one pass: an offset order and a pick for each
      entry of the shuffled snapshot. */
  predicate Rolls(perm: seq<Grain?>, orders: seq<seq<int>>, picks: seq<nat>)
  {
    |orders| == |perm| && |picks| == |perm| &&
    forall i :: 0 <= i < |orders| ==> multiset(orders[i]) == multiset{0, -1, 1}
  }

  /** One turn of the update pass on the flattened cells: a sand entry
      falls from the cell it holds by then; any other entry does nothing. */
  function Turn(cells: seq<Grain?>, g: Grain?, order: seq<int>, pick: nat): (r: seq<Grain?>)
    requires |cells| == ROWS * COLS && multiset(order) == multiset{0, -1, 1}
    ensures |r| == |cells|
  {
    if g != null && g.kind == Sand && Find(cells, g).Some? then
      var k := Find(cells, g).value;
      Decode(k);
      FallIn(cells, k % COLS, k / COLS, order, pick)
    else
      cells
  }

  /** A turn either changes nothing, or moves the sand entry from the cell
      (x0, y0) it held to a cell (x1, y1) one row down and at most one column
      aside that was empty. */
  lemma TurnRule(cells: seq<Grain?>, g: Grain?, order: seq<int>, pick: nat)
    returns (moved: bool, x0: int, y0: int, x1: int, y1: int)
    requires |cells| == ROWS * COLS && multiset(order) == multiset{0, -1, 1}
    ensures !moved ==> Turn(cells, g, order, pick) == cells
    ensures moved ==>
      && g != null && g.kind == Sand
      && 0 <= x0 < COLS && 0 <= y0 < ROWS && 0 <= x1 < COLS && 0 <= y1 < ROWS
      && y1 == y0 + 1 && -1 <= x1 - x0 <= 1
      && 0 <= Idx(COLS, x0, y0) < |cells| && 0 <= Idx(COLS, x1, y1) < |cells|
      && cells[Idx(COLS, x0, y0)] == g && cells[Idx(COLS, x1, y1)] == null
      && Turn(cells, g, order, pick) == cells[Idx(COLS, x0, y0) := null][Idx(COLS, x1, y1) := g]
  {
    moved, x0, y0, x1, y1 := false, 0, 0, 0, 0;
    if g != null && g.kind == Sand && Find(cells, g).Some? {
      var k := Find(cells, g).value;
      Decode(k);
      x0, y0 := k % COLS, k / COLS;
      FallInRule(cells, x0, y0, order, pick);
      var c := Choice(x0, y0, order, BelowIn(cells, x0, y0), pick);
      if y0 < ROWS - 1 && c.Cell? {
        moved, x1, y1 := true, c.x, c.y;
      }
    }
  }

  /** The update pass on the flattened cells, after the first `n` entries
      of the shuffled snapshot `perm`: each sand among them falls, in order,
      from the cell it holds when its turn comes. */
  function Pass(cells: seq<Grain?>, perm: seq<Grain?>, orders: seq<seq<int>>, picks: seq<nat>, n: nat): (r: seq<Grain?>)
    requires |cells| == ROWS * COLS && Rolls(perm, orders, picks) && n <= |perm|
    ensures |r| == |cells|
  {
    if n == 0 then cells
    else Turn(Pass(cells, perm, orders, picks, n - 1), perm[n - 1], orders[n - 1], picks[n - 1])
  }

  /** The Python grid: `grid[y][x]` holds a grain or 0 (here `null`). */
  class Board {
    const grid: array2<Grain?>

    /** The grains on the board. */
    ghost function Grains(): (gs: set<Grain>)
      reads grid
    {
      set r, c | 0 <= r < grid.Length0 && 0 <= c < grid.Length1 && grid[r, c] != null :: grid[r, c]
    }

    /** Grid/coordinate agreement: every grain's `x`, `y` name its own cell. */
    ghost predicate Valid()
      reads grid, Grains()
    {
      grid.Length0 == ROWS && grid.Length1 == COLS &&
      forall r, c :: 0 <= r < ROWS && 0 <= c < COLS && grid[r, c] != null ==>
        grid[r, c].y == r && grid[r, c].x == c
    }

    /** A grain is on the board exactly when it is stored at its own cell. */
    ghost predicate OnBoard(s: Grain)
      reads grid, s
    {
      0 <= s.y < grid.Length0 && 0 <= s.x < grid.Length1 && grid[s.y, s.x] == s
    }

    constructor ()
      ensures Valid() && fresh(grid)
      ensures forall r, c :: 0 <= r < ROWS && 0 <= c < COLS ==> grid[r, c] == null
    {
      grid := new Grain?[ROWS, COLS]((r, c) => null);
    }

    /** The test of the list comprehension in `Sand.fall`:
        `0 <= x < len(grid[0]) and 0 <= y < len(grid) and grid[y][x] == 0`. */
    predicate Free(x: int, y: int)
      reads grid
    {
      0 <= x < grid.Length1 && 0 <= y < grid.Length0 && grid[y, x] == null
    }

    /** The test of the comprehension for the three offsets -1, 0 and 1
        of the row below (x, y). */
    function Below(x: int, y: int): (o: seq<bool>)
      reads grid
      ensures |o| == 3
    {
      [Free(x - 1, y + 1), Free(x, y + 1), Free(x + 1, y + 1)]
    }

    /** `list(itertools.chain(*grid))`: the cells row after row. */
    ghost function Snapshot(): (cells: seq<Grain?>)
      reads grid
      requires grid.Length0 == ROWS && grid.Length1 == COLS
      ensures |cells| == ROWS * COLS
    {
      seq(ROWS * COLS, i requires 0 <= i < ROWS * COLS reads grid => grid[i / COLS, i % COLS])
    }

    /** The snapshot holds cell (x, y) at its flat index. */
    lemma SnapshotAt(x: int, y: int)
      requires grid.Length0 == ROWS && grid.Length1 == COLS && 0 <= x < COLS && 0 <= y < ROWS
      ensures 0 <= Idx(COLS, x, y) < ROWS * COLS && Snapshot()[Idx(COLS, x, y)] == grid[y, x]
    {
      IdxInRange(COLS, ROWS, x, y);
      IdxDecode(COLS, ROWS, x, y);
    }

    /** The board's test and the snapshot's test agree. */
    lemma BelowAgrees(x: int, y: int)
      requires grid.Length0 == ROWS && grid.Length1 == COLS
      ensures Below(x, y) == BelowIn(Snapshot(), x, y)
    {
      FreeAgrees(x - 1, y + 1);
      FreeAgrees(x, y + 1);
      FreeAgrees(x + 1, y + 1);
    }

    lemma FreeAgrees(x: int, y: int)
      requires grid.Length0 == ROWS && grid.Length1 == COLS
      ensures Free(x, y) == OpenIn(Snapshot(), x, y)
    {
      if 0 <= x < COLS && 0 <= y < ROWS {
        SnapshotAt(x, y);
      }
    }

    /** Under agreement a grain occurs in the snapshot only at its own cell. */
    lemma SnapshotOnly(q: Grain)
      requires Valid() && OnBoard(q)
      ensures 0 <= Idx(COLS, q.x, q.y) < ROWS * COLS && Snapshot()[Idx(COLS, q.x, q.y)] == q
      ensures forall j :: 0 <= j < ROWS * COLS && j != Idx(COLS, q.x, q.y) ==> Snapshot()[j] != q
      ensures Find(Snapshot(), q) == Some(Idx(COLS, q.x, q.y))
    {
      SnapshotAt(q.x, q.y);
      forall j | 0 <= j < ROWS * COLS && Snapshot()[j] == q ensures j == Idx(COLS, q.x, q.y) {
        Decode(j);
        assert grid[j / COLS, j % COLS] == q;
      }
    }

    /** The three writes of `Sand.fall` (lines 28-31): empty the grain's
        cell, take the new coordinates, store the grain at the new cell.
        In the snapshot this is the move of one entry into an empty cell. */
    method Move(s: Grain, nx: int, ny: int)
      requires Valid() && OnBoard(s) && Free(nx, ny)
      modifies grid, s
      ensures Valid() && OnBoard(s) && Grains() == old(Grains())
      ensures s.x == nx && s.y == ny
      ensures 0 <= Idx(COLS, old(s.x), old(s.y)) < ROWS * COLS && 0 <= Idx(COLS, nx, ny) < ROWS * COLS
      ensures Snapshot() == old(Snapshot())[Idx(COLS, old(s.x), old(s.y)) := null][Idx(COLS, nx, ny) := s]
    {
      ghost var s0, before := Snapshot(), Grains();
      ghost var x0, y0 := s.x, s.y;
      ghost var a, b := Idx(COLS, x0, y0), Idx(COLS, nx, ny);
      IdxInRange(COLS, ROWS, x0, y0);
      IdxInRange(COLS, ROWS, nx, ny);
      label L:
      grid[s.y, s.x] := null;
      s.x, s.y := nx, ny;
      grid[s.y, s.x] := s;
      assert Valid();
      assert Grains() == before by {
        forall q | q in before ensures q in Grains() {
          if q != s {
            assert old@L(grid[q.y, q.x]) == q;
            assert grid[q.y, q.x] == q;
          }
        }
      }
      assert Snapshot() == s0[a := null][b := s] by {
        IdxDecode(COLS, ROWS, x0, y0);
        IdxDecode(COLS, ROWS, nx, ny);
        forall i | 0 <= i < ROWS * COLS ensures Snapshot()[i] == s0[a := null][b := s][i] {
          Decode(i);
        }
      }
    }

    /** `Sand.fall`: unless in the bottom row, move to the chosen free cell
        below (straight or diagonal); with no free candidate, stay. */
    method Fall(s: Grain, order: seq<int>, pick: nat)
      requires Valid() && OnBoard(s) && s.kind == Sand
      requires multiset(order) == multiset{0, -1, 1}
      modifies grid, s
      ensures Valid() && OnBoard(s) && Grains() == old(Grains())
      ensures Snapshot() == FallIn(old(Snapshot()), old(s.x), old(s.y), order, pick)
      ensures var c := old(Choice(s.x, s.y, order, Below(s.x, s.y), pick));
        if old(s.y) < ROWS - 1 && c.Cell? then s.x == c.x && s.y == c.y
        else s.x == old(s.x) && s.y == old(s.y)
    {
      ghost var s0 := Snapshot();
      ghost var x0, y0 := s.x, s.y;
      BelowAgrees(s.x, s.y);
      SnapshotAt(x0, y0);
      FallInRule(s0, x0, y0, order, pick);
      if s.y < grid.Length0 - 1 {
        var c := Choice(s.x, s.y, order, Below(s.x, s.y), pick);
        if c.Cell? {
          assert Free(c.x, c.y) by {
            assert Below(x0, y0)[c.x - x0 + 1] == Free(c.x, c.y);
          }
          Move(s, c.x, c.y);
        }
      }
    }

    /** Whatever the snapshot holds is a grain on the board. */
    lemma SnapshotInGrains()
      requires grid.Length0 == ROWS && grid.Length1 == COLS
      ensures forall q: Grain :: q in Snapshot() ==> q in Grains()
    {
      forall q: Grain | q in Snapshot() ensures q in Grains() {
        var i :| 0 <= i < ROWS * COLS && Snapshot()[i] == q;
        assert grid[i / COLS, i % COLS] == q;
      }
    }

    lemma GrainOnBoard(q: Grain)
      requires Valid() && q in Grains()
      ensures OnBoard(q)
    {
      var r, c :| 0 <= r < grid.Length0 && 0 <= c < grid.Length1 && grid[r, c] == q;
    }

    /** One turn of the update pass (lines 102-104): a sand falls; a stone
        or an empty cell is skipped. */
    method Visit(cell: Grain?, order: seq<int>, pick: nat)
      requires Valid() && (cell != null ==> cell in Grains())
      requires multiset(order) == multiset{0, -1, 1}
      modifies grid, cell
      ensures Valid() && Grains() == old(Grains())
      ensures Snapshot() == Turn(old(Snapshot()), cell, order, pick)
      ensures cell != null && cell.kind != Sand ==> cell.x == old(cell.x) && cell.y == old(cell.y)
    {
      if cell != null && cell.kind == Sand {
        GrainOnBoard(cell);
        SnapshotOnly(cell);
        IdxDecode(COLS, ROWS, cell.x, cell.y);
        Fall(cell, order, pick);
      }
    }

    /** The loop of the update pass (lines 102-104): the cells of `perm`,
        each 0 or a grain of the board, are visited in order and `fall` is
        called on each sand, with that call's shuffled offsets and choice.
        The board ends as `Pass` says, and the sands that fell are those of
        `perm`. */
    method Sweep(perm: seq<Grain?>, orders: seq<seq<int>>, picks: seq<nat>) returns (ghost fallen: seq<Grain>)
      requires Valid() && Rolls(perm, orders, picks)
      requires forall k :: 0 <= k < |perm| && perm[k] != null ==> perm[k] in Grains()
      modifies grid, Grains()
      ensures Valid() && Grains() == old(Grains())
      ensures Snapshot() == Pass(old(Snapshot()), perm, orders, picks, |perm|)
      ensures fallen == SandsOf(perm)
    {
      ghost var snap, members := Snapshot(), Grains();
      ghost var cur := snap;
      fallen := [];
      var i := 0;
      while i < |perm|
        invariant 0 <= i <= |perm|
        invariant Valid() && Grains() == members && grid.Length0 == ROWS && grid.Length1 == COLS
        invariant cur == Pass(snap, perm, orders, picks, i) && Snapshot() == cur
        invariant fallen == SandsOf(perm[..i])
      {
        var cell := perm[i];
        assert perm[..i + 1] == perm[..i] + [cell];
        SandsOfSnoc(perm[..i], cell);
        Visit(cell, orders[i], picks[i]);
        cur := Turn(cur, cell, orders[i], picks[i]);
        if cell != null && cell.kind == Sand {
          fallen := fallen + [cell];
        }
        i := i + 1;
      }
      assert perm[..i] == perm;
    }

    /** The update pass (lines 97-104): the snapshot of the board, shuffled
        into `perm`, is swept. Besides what `Sweep` states, every sand has
        moved at most one row down and one column aside, every stone is
        still on the board, and the sands that fell are, counted, those of
        the snapshot. */
    method Tick(perm: seq<Grain?>, orders: seq<seq<int>>, picks: seq<nat>) returns (ghost fallen: seq<Grain>)
      requires Valid() && multiset(perm) == multiset(Snapshot())
      requires Rolls(perm, orders, picks)
      modifies grid, Grains()
      ensures Valid() && Grains() == old(Grains())
      ensures Snapshot() == Pass(old(Snapshot()), perm, orders, picks, |perm|)
      ensures forall q :: q in old(Grains()) && q.kind == Sand ==>
        old(q.y) <= q.y <= old(q.y) + 1 && -1 <= q.x - old(q.x) <= 1
      ensures forall q :: q in old(Grains()) && q.kind == Stone ==> q.x == old(q.x) && q.y == old(q.y) && OnBoard(q)
      ensures fallen == SandsOf(perm)
      ensures forall q: Grain :: multiset(fallen)[q] == multiset(SandsOf(old(Snapshot())))[q]
    {
      ghost var snap, members := Snapshot(), Grains();
      forall q | q in members
        ensures 0 <= old(q.x) < COLS && 0 <= old(q.y) < ROWS && 0 <= Idx(COLS, old(q.x), old(q.y)) < |snap|
        ensures snap[Idx(COLS, old(q.x), old(q.y))] == q
        ensures forall j :: 0 <= j < |snap| && j != Idx(COLS, old(q.x), old(q.y)) ==> snap[j] != q
        ensures multiset(snap)[q] == 1
      {
        GrainOnBoard(q);
        SnapshotOnly(q);
        CountOnce(snap, Idx(COLS, q.x, q.y), q);
      }
      SnapshotInGrains();
      forall k | 0 <= k < |perm| && perm[k] != null ensures perm[k] in members {
        assert perm[k] in multiset(snap);
      }
      fallen := Sweep(perm, orders, picks);
      SandsOfShuffle(snap, perm);
      forall q | q in members && q.kind == Stone ensures q.x == old(q.x) && q.y == old(q.y) && OnBoard(q) {
        var k := Idx(COLS, old(q.x), old(q.y));
        PassKeepsStones(snap, perm, orders, picks, |perm|, k);
        SnapshotAt(old(q.x), old(q.y));
      }
      forall q | q in members && q.kind == Sand
        ensures old(q.y) <= q.y <= old(q.y) + 1 && -1 <= q.x - old(q.x) <= 1
      {
        GrainOnBoard(q);
        SnapshotOnly(q);
        PassMovesLittle(snap, perm, orders, picks, q, old(q.x), old(q.y), q.x, q.y);
      }
    }

    /** Brush stamping (lines 82-95): with either button down, every
        in-bounds cell of the brush gets a new grain of the current type at
        that cell (left button) or 0 (right button only); nothing else is
        written. */
    method Stamp(mx: int, my: int, b: int, left: bool, right: bool, kind: Kind)
      requires Valid()
      modifies grid
      ensures Valid()
      ensures forall r, c :: 0 <= r < ROWS && 0 <= c < COLS ==>
        if InBrush(mx, my, b, c, r) && left then
          grid[r, c] != null && fresh(grid[r, c]) && grid[r, c].kind == kind && grid[r, c].x == c && grid[r, c].y == r
        else if InBrush(mx, my, b, c, r) && right then grid[r, c] == null
        else grid[r, c] == old(grid[r, c])
    {
      if left || right {
        var x := mx - b;
        while x < mx + b
          invariant mx - b <= x
          invariant Valid()
          invariant forall r, c :: 0 <= r < ROWS && 0 <= c < COLS ==>
            if InBrush(mx, my, b, c, r) && c < x then
              if left then
                grid[r, c] != null && fresh(grid[r, c]) && grid[r, c].kind == kind && grid[r, c].x == c && grid[r, c].y == r
              else grid[r, c] == null
            else grid[r, c] == old(grid[r, c])
        {
          var y := my - b;
          while y < my + b
            invariant my - b <= y
            invariant Valid()
            invariant forall r, c :: 0 <= r < ROWS && 0 <= c < COLS ==>
              if InBrush(mx, my, b, c, r) && (c < x || (c == x && r < y)) then
                if left then
                  grid[r, c] != null && fresh(grid[r, c]) && grid[r, c].kind == kind && grid[r, c].x == c && grid[r, c].y == r
                else grid[r, c] == null
              else grid[r, c] == old(grid[r, c])
          {
            if 0 <= x < COLS && 0 <= y < ROWS {
              var dx, dy := x - mx, y - my;
              if dx * dx + dy * dy <= b * b {
                if left {
                  var g := new Grain(kind, x, y);
                  grid[y, x] := g;
                } else if right {
                  grid[y, x] := null;
                }
              }
            }
            y := y + 1;
          }
          x := x + 1;
        }
      }
    }
  }

  /** The outcome of `random.choice(available_positions)`, if there is any. */
  datatype Pick = NoRoom | Cell(x: int, y: int)

  /** A grain held by exactly one cell occurs once. */
  lemma CountOnce(cells: seq<Grain?>, k: int, q: Grain)
    requires 0 <= k < |cells| && cells[k] == q
    requires forall j :: 0 <= j < |cells| && j != k ==> cells[j] != q
    ensures multiset(cells)[q] == 1
  {
    assert cells == cells[..k] + [cells[k]] + cells[k + 1..];
    assert q !in cells[..k];
    assert q !in cells[k + 1..];
  }

  /** Following one sand through the pass: it is always held by exactly one
      cell (x1, y1); it has not moved while its turn has not come, and after
      a single turn it is at most one row lower and one column aside. */
  lemma {:induction false} PassTracks(cells: seq<Grain?>, perm: seq<Grain?>, orders: seq<seq<int>>, picks: seq<nat>,
                                      n: nat, g: Grain, x: int, y: int) returns (x1: int, y1: int)
    requires |cells| == ROWS * COLS && Rolls(perm, orders, picks) && n <= |perm|
    requires 0 <= x < COLS && 0 <= y < ROWS && 0 <= Idx(COLS, x, y) < |cells| && cells[Idx(COLS, x, y)] == g
    requires forall j :: 0 <= j < |cells| && j != Idx(COLS, x, y) ==> cells[j] != g
    ensures 0 <= x1 < COLS && 0 <= y1 < ROWS && 0 <= Idx(COLS, x1, y1) < |cells|
    ensures Pass(cells, perm, orders, picks, n)[Idx(COLS, x1, y1)] == g
    ensures forall j :: 0 <= j < |cells| && j != Idx(COLS, x1, y1) ==> Pass(cells, perm, orders, picks, n)[j] != g
    ensures multiset(perm[..n])[g] == 0 ==> x1 == x && y1 == y
    ensures multiset(perm[..n])[g] <= 1 ==> y <= y1 <= y + 1 && -1 <= x1 - x <= 1
  {
    if n == 0 {
      x1, y1 := x, y;
    } else {
      var px, py := PassTracks(cells, perm, orders, picks, n - 1, g, x, y);
      var h := perm[n - 1];
      assert perm[..n] == perm[..n - 1] + [h];
      assert multiset(perm[..n])[g] == multiset(perm[..n - 1])[g] + (if h == g then 1 else 0);
      x1, y1 := TurnTracks(Pass(cells, perm, orders, picks, n - 1), h, orders[n - 1], picks[n - 1], g, px, py);
    }
  }

  /** Following one sand through one turn: it stays where it was unless the
      turn is its own, and then it goes at most one row down and one column
      aside. */
  lemma TurnTracks(cells: seq<Grain?>, h: Grain?, order: seq<int>, pick: nat, g: Grain, x: int, y: int)
    returns (x1: int, y1: int)
    requires |cells| == ROWS * COLS && multiset(order) == multiset{0, -1, 1}
    requires 0 <= x < COLS && 0 <= y < ROWS && 0 <= Idx(COLS, x, y) < |cells| && cells[Idx(COLS, x, y)] == g
    requires forall j :: 0 <= j < |cells| && j != Idx(COLS, x, y) ==> cells[j] != g
    ensures 0 <= x1 < COLS && 0 <= y1 < ROWS && 0 <= Idx(COLS, x1, y1) < |cells|
    ensures Turn(cells, h, order, pick)[Idx(COLS, x1, y1)] == g
    ensures forall j :: 0 <= j < |cells| && j != Idx(COLS, x1, y1) ==> Turn(cells, h, order, pick)[j] != g
    ensures h != g ==> x1 == x && y1 == y
    ensures (y1 == y && x1 == x) || (y1 == y + 1 && -1 <= x1 - x <= 1)
  {
    var moved, hx, hy, tx, ty := TurnRule(cells, h, order, pick);
    x1, y1 := x, y;
    if moved {
      var a, b := Idx(COLS, hx, hy), Idx(COLS, tx, ty);
      if h == g {
        IdxInjective(COLS, ROWS, hx, hy, x, y);
        x1, y1 := tx, ty;
      } else {
        assert a != Idx(COLS, x, y) && b != Idx(COLS, x, y);
      }
    }
  }

  /** A sand listed at most once in `perm` ends the pass at most one row
      lower and one column aside from where it began. */
  lemma PassMovesLittle(cells: seq<Grain?>, perm: seq<Grain?>, orders: seq<seq<int>>, picks: seq<nat>,
                        g: Grain, x: int, y: int, x1: int, y1: int)
    requires |cells| == ROWS * COLS && Rolls(perm, orders, picks)
    requires 0 <= x < COLS && 0 <= y < ROWS && 0 <= Idx(COLS, x, y) < |cells| && cells[Idx(COLS, x, y)] == g
    requires forall j :: 0 <= j < |cells| && j != Idx(COLS, x, y) ==> cells[j] != g
    requires multiset(perm)[g] <= 1
    requires 0 <= x1 < COLS && 0 <= y1 < ROWS && 0 <= Idx(COLS, x1, y1) < |cells|
    requires Pass(cells, perm, orders, picks, |perm|)[Idx(COLS, x1, y1)] == g
    ensures y <= y1 <= y + 1 && -1 <= x1 - x <= 1
  {
    assert perm[..|perm|] == perm;
    var tx, ty := PassTracks(cells, perm, orders, picks, |perm|, g, x, y);
    IdxInjective(COLS, ROWS, tx, ty, x1, y1);
  }

  /** No stone moves in the pass: the cells holding stones keep them. */
  lemma {:induction false} PassKeepsStones(cells: seq<Grain?>, perm: seq<Grain?>, orders: seq<seq<int>>, picks: seq<nat>,
                                           n: nat, i: int)
    requires |cells| == ROWS * COLS && Rolls(perm, orders, picks) && n <= |perm|
    requires 0 <= i < |cells| && cells[i] != null && cells[i].kind == Stone
    ensures Pass(cells, perm, orders, picks, n)[i] == cells[i]
  {
    if n > 0 {
      PassKeepsStones(cells, perm, orders, picks, n - 1, i);
      TurnKeepsStones(Pass(cells, perm, orders, picks, n - 1), perm[n - 1], orders[n - 1], picks[n - 1], i);
    }
  }

  /** No stone moves in one turn. */
  lemma TurnKeepsStones(cells: seq<Grain?>, h: Grain?, order: seq<int>, pick: nat, i: int)
    requires |cells| == ROWS * COLS && multiset(order) == multiset{0, -1, 1}
    requires 0 <= i < |cells| && cells[i] != null && cells[i].kind == Stone
    ensures Turn(cells, h, order, pick)[i] == cells[i]
  {
    var moved, hx, hy, tx, ty := TurnRule(cells, h, order, pick);
    if moved {
      assert i != Idx(COLS, hx, hy) && i != Idx(COLS, tx, ty);
    }
  }

  /** The pass only rearranges the cells: every grain and every empty cell
      is kept. */
  lemma {:induction false} PassKeepsGrains(cells: seq<Grain?>, perm: seq<Grain?>, orders: seq<seq<int>>, picks: seq<nat>,
                                           n: nat)
    requires |cells| == ROWS * COLS && Rolls(perm, orders, picks) && n <= |perm|
    ensures multiset(Pass(cells, perm, orders, picks, n)) == multiset(cells)
  {
    if n > 0 {
      PassKeepsGrains(cells, perm, orders, picks, n - 1);
      var before := Pass(cells, perm, orders, picks, n - 1);
      var moved, hx, hy, tx, ty := TurnRule(before, perm[n - 1], orders[n - 1], picks[n - 1]);
      if moved {
        var a, b := Idx(COLS, hx, hy), Idx(COLS, tx, ty);
        var after: seq<Grain?> := before[a := null][b := before[a]];
        assert after == before[a := before[b]][b := before[a]];
      }
    }
  }

  /** The sands among a sequence of cells, in order: the cells for which
      `isinstance(cell, Sand)` holds. */
  function SandsOf(cells: seq<Grain?>): (s: seq<Grain>)
    ensures |s| <= |cells|
  {
    if cells == [] then []
    else
      var last := cells[|cells| - 1];
      SandsOf(cells[..|cells| - 1]) + (if last != null && last.kind == Sand then [last] else [])
  }

  /** One more cell adds itself to the sands when it is a sand. */
  lemma SandsOfSnoc(cells: seq<Grain?>, c: Grain?)
    ensures SandsOf(cells + [c]) == SandsOf(cells) + (if c != null && c.kind == Sand then [c] else [])
  {
    assert (cells + [c])[..|cells|] == cells;
  }

  /** `SandsOf` keeps every sand as often as it occurs and nothing else. */
  lemma {:induction false} SandsOfCount(cells: seq<Grain?>, q: Grain)
    ensures multiset(SandsOf(cells))[q] == if q.kind == Sand then multiset(cells)[q] else 0
  {
    if cells != [] {
      var init := cells[..|cells| - 1];
      SandsOfCount(init, q);
      assert cells == init + [cells[|cells| - 1]];
    }
  }

  /** Any shuffle of the cells yields the same sands, each as often as before:
      the pass calls `fall` once per sand of the snapshot, and on no stone
      and no empty cell. */
  lemma SandsOfShuffle(cells: seq<Grain?>, shuffled: seq<Grain?>)
    requires multiset(shuffled) == multiset(cells)
    ensures forall q: Grain :: multiset(SandsOf(shuffled))[q] == multiset(SandsOf(cells))[q]
    ensures forall q :: q in SandsOf(shuffled) ==> q.kind == Sand && q in cells
  {
    forall q: Grain ensures multiset(SandsOf(shuffled))[q] == multiset(SandsOf(cells))[q] {
      SandsOfCount(shuffled, q);
      SandsOfCount(cells, q);
    }
    forall q | q in SandsOf(shuffled) ensures q.kind == Sand && q in cells {
      SandsOfCount(shuffled, q);
      assert multiset(SandsOf(shuffled))[q] > 0;
      assert multiset(cells)[q] > 0;
    }
  }
}
