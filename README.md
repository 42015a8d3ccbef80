# Falling-sand engine, modelled in Dafny

This project models the simulation core of a falling-sand toy. In the C++ engine the world is a flat,
row-major grid `worldParticleData[y * W + x]`. Each cell is empty or points at one particle object.
Each particle carries a type id, a position, a velocity and an `updatedThisFrame` marker. Four rules
change the grid in place:

- **sand** (id 1) gains gravity and walks step by step toward `position + trunc(velocity)`. It then
  settles into the first open cell below, trying the three columns in a shuffled order;
- **water** (id 3) does the same walk, then spreads into the first open cell beside it, then trades
  places with a sand particle resting on top;
- **fire** (id 4) burns out one time in ten. Otherwise it gets a random nudge to its velocity and jumps
  once. It turns water into fire at the jump target and two jumps ahead;
- **stone** (id 2) does nothing.

The Python prototype has a separate grid `grid[y][x]` of 108 rows by 192 columns. Its parts are the
one-step `Sand.fall`, the update pass over a shuffled snapshot of the grid, the brush that paints or
erases a disc, the brush-size clamp and the cycling of the particle type.

Modules:

- `Grid` (grid.dfy): the particle object, the world (an `array<Particle?>` with its dimensions and
  the gravity increment), truncation toward zero, the flat index, and the two grid writes every rule
  uses (`Move`, `Swap`). `World.Valid()` is grid/position agreement: every occupant is in bounds and
  sits at the index its own position names.
- `Motion` (motion.dfy): the step-by-step walk (`StepToward`, specified by the pure `Walk`) and the
  shuffled neighbour probe (`ProbeMove`, specified by `FirstOpen`). Sand and water share both.
- `SandParticle`, `WaterParticle`, `FireParticle`, `StoneParticle`: one module per header. The sand,
  water and fire rules are each a `method` proved against a pure `Step` function of the old grid and
  the old particle state, and the properties of `Step` are lemmas. Stone has no `Step`: its `Update`
  changes nothing, and its contract says so directly.
- `Prototype` (prototype.dfy): the Python grid as an `array2<Grain?>` with the agreement predicate
  `Board.Valid()`, plus `Fall`, the update pass (`Visit`, `Sweep`, `Tick`), `Stamp`, `ClampBrush` and
  `NextType`. The pass is also given on values, over the flattened cells `list(chain(*grid))`:
  `FallIn` is one `fall`, `Turn` one iteration of the loop, and `Pass` the loop over a prefix of the
  shuffled snapshot. Board methods are proved to change the snapshot exactly as these functions say.

Randomness enters as parameters:

- the shuffled direction arrays;
- the three `rand()` results of a fire update (`deathRoll`, `xRoll`, `yRoll`);
- for the Python pass, the shuffled snapshot and, for each `fall`, the shuffled candidate order and
  the `random.choice` index.

Velocities are exact reals.

Where the code differs from what a falling-sand engine is usually expected to do, the model follows the code:

- There is no Gunpowder particle. Fire converts particles with id 3, and id 3 is water
  (src/fireParticle.h:44 and :61, src/waterParticle.h:9).
- None of the four particle headers has a tick scheduler or a pass that resets `updatedThisFrame`. The
  rules only set the marker, and stone does not even do that.
- The Python brush overwrites whatever a cell holds. It is not a placement that fails on a full cell.
- The comment on the brush clamp says 10, but the code clamps to [1, 20].
- Water computes its walk target as `int newX = x + velocity[0]`. That truncates the sum, where sand
  adds a truncated velocity (`Target`, `TargetDiffersFromSand`). Water's sideways `directions`
  array is `{-1, 1}` in a three-element array, so its third element is 0.

## Model

| member | source | states |
|---|---|---|
| Grid.Trunc | src/sandParticle.h:33-34 | `static_cast<int>` of a float truncates toward zero: the result is the integer part, below the value for positive and above it for negative values |
| Grid.TruncNegate | src/fireParticle.h:32-33 | truncation is symmetric about zero, so a negative fire velocity moves as far as the positive one |
| Grid.TruncShift | src/waterParticle.h:23-24 | for a non-negative coordinate and speed, truncating `x + v` equals `x + trunc(v)` |
| Grid.InBounds | src/fireParticle.h:17-19 | the bounds test: a column in `[0, W)` and a row in `[0, H)` |
| Grid.Idx | src/sandParticle.h:50 | the flat index `y * W + x`; `IdxInRange` shows it lies in the grid for an in-bounds cell |
| Grid.Shift | src/sandParticle.h:52-55 | a move as a value: the old cell emptied, then the particle stored at the new one |
| Grid.IdxInjective | src/sandParticle.h:50 | two in-bounds cells share the flat index `y * W + x` only if they are the same cell |
| Grid.IdxDecode | src/sandParticle.h:50 | the flat index decodes back to its cell: row by division, column by remainder |
| Grid.ShiftPermutes | src/sandParticle.h:52-55 | a move into an empty cell (or onto its own cell) keeps every particle and every empty cell: the grid is a permutation of itself |
| Grid.SwapPermutes | src/waterParticle.h:78-79 | two cells trading occupants keep every particle and every empty cell |
| Grid.MovedStillMember | src/waterParticle.h:42-45 | after two moves of one particle, every occupant of the grid was on it before |
| Grid.World.At | src/waterParticle.h:75 | under grid/position agreement, the occupant found at a cell has that cell as its position |
| Grid.World.Valid | src/sandParticle.h:50-55 | grid/position agreement: every occupant of a cell is in bounds and its own position indexes that cell, so it occupies at most one cell; every move preserves it |
| Grid.World.Move | src/sandParticle.h:52-55 | null the old cell, store the particle at the new one, update its position: agreement holds, and the grid is the old grid with exactly those two cells written |
| Grid.World.Swap | src/waterParticle.h:78-83 | two particles trade cells and positions; agreement holds for both and only their two cells change |
| Motion.StepOpen | src/sandParticle.h:50 | the walk's and the probe's cell test: column in `[0, W)`, row before `H` (there is no lower bound on the row), cell empty |
| Motion.Walk | src/sandParticle.h:41-61 | the walk as a value: one step per unfinished axis until the target or the first closed cell; its properties are those of `WalkBounded`, `WalkStopsOnOpenCell` and `WalkTrace` |
| Motion.FirstOpen | src/sandParticle.h:69-80 | the probe as a value: the index of the first shuffled direction whose cell is open, if any |
| Motion.FirstOpenOfThree | src/sandParticle.h:64-80 | with the directions {-1, 0, 1}: a found direction is one of the three cells of the row and is open; none is found exactly when all three are closed |
| Motion.ChebStep | src/sandParticle.h:37-47 | each iteration of the walk brings the position exactly one step nearer the target |
| Motion.WalkBounded | src/sandParticle.h:33-47 | the walk takes at most max(\|dx\|, \|dy\|) iterations, exactly that many when unblocked; it reaches the target iff no step was blocked, and it stays on the segment toward the target |
| Motion.WalkStopsOnOpenCell | src/sandParticle.h:49-61 | the walk ends on the start cell or on a column-in-range, row-above-bottom, empty cell; a blocked walk stopped because its next cell failed that test |
| Motion.Along | src/sandParticle.h:41-47 | the cell after k unblocked steps, one step per unfinished axis toward the target; it stays on the segment between start and target |
| Motion.WalkTrace | src/sandParticle.h:41-61 | the walk ends on the cell reached after its open steps, every cell those steps entered was open, and a blocked walk's next cell was closed, so it never passes an occupied cell |
| Motion.FirstOpenSpec | src/sandParticle.h:69-80 | the probe picks the first direction, in shuffled order, whose cell is open; it picks none exactly when every direction's cell is closed |
| Motion.FirstOpenIs | src/sandParticle.h:69-80 | when direction `i` is open and every earlier one is closed, the probe picks `i` |
| Motion.FirstOpenIgnoresShift | src/sandParticle.h:72 | a move whose two cells lie outside the probed row does not change what the probe finds |
| Motion.Advance | src/sandParticle.h:42-61 | one iteration: step each unfinished axis; move into the new cell if open (keeping agreement), otherwise zero both velocity components and leave the grid alone; the distance to the target shrinks |
| Motion.StepToward | src/sandParticle.h:40-62 | the loop ends where `Walk` over the old grid says, with `p` moved there from its old cell and nothing else changed, and zero velocity exactly when blocked |
| Motion.ProbeMove | src/sandParticle.h:64-80 | the shuffled probe moves `p` to the cell `FirstOpen` names over the old grid, or leaves it and the grid as they were |
| SandParticle.Create | src/sandParticle.h:9-12 | a new sand particle has id 1, the given position and zero velocity |
| SandParticle.Step | src/sandParticle.h:25-83 | one sand update as a value: the gravity, the walk over the old grid, then the settle probed on the grid after the walk; its properties are the lemmas below |
| SandParticle.StepVelocity | src/sandParticle.h:29-59 | after an update the vertical speed is non-negative, zero exactly when a step was blocked; an unblocked walk reaches `position + trunc(velocity)`; zero horizontal speed stays zero and the walk stays in its column |
| SandParticle.StepLands | src/sandParticle.h:50-77 | the particle ends in bounds, no higher than it started and at most one row below the walk's end, on its own cell or one that was empty; the grid after the update is a permutation of the grid before |
| SandParticle.SettleSeesGrid | src/sandParticle.h:65-72 | the settle probes the row below the walk's end exactly as it was before the update |
| SandParticle.SettleRule | src/sandParticle.h:64-80 | with directions {-1, 0, 1}: a settle goes one row down and at most one column aside into an open cell, and the particle stays exactly when all three cells below are closed, which is always so on the bottom row |
| SandParticle.Fall | src/sandParticle.h:26-62 | add the gravity increment to `velocity[1]`, then walk; the result, position, grid and velocity are those of `Walk` over the old grid |
| SandParticle.Update | src/sandParticle.h:25-83 | one update ends in the position and velocity `Step` gives, with the grid changed only by moving `p` from its old cell to its new one, agreement kept and `updatedThisFrame` set |
| WaterParticle.Create | src/waterParticle.h:8-11 | a new water particle has id 3, the given position and zero velocity |
| WaterParticle.Target | src/waterParticle.h:23-24 | water's walk target `static_cast<int>(x + v)`, the truncated sum |
| WaterParticle.TargetMatchesSand | src/waterParticle.h:23-24 | for a non-negative coordinate and speed, water's target equals sand's |
| WaterParticle.TargetDiffersFromSand | src/waterParticle.h:23-24 | for a negative speed the two targets differ: an example input |
| WaterParticle.Flow | src/waterParticle.h:16-69 | after the walk and the side move the particle is in bounds and the grid keeps its size |
| WaterParticle.FlowVelocity | src/waterParticle.h:20-52 | water's walk resets velocity like sand's: vertical speed non-negative, zero exactly when blocked; an unblocked walk reaches its target; it never rises |
| WaterParticle.SideNeverOwnCell | src/waterParticle.h:55-61 | the 0 in the third slot of `directions` names the particle's own occupied cell and is never chosen |
| WaterParticle.SideRule | src/waterParticle.h:54-69 | with directions {-1, 1, 0}: a side move stays in the row and goes one column left or right into an open cell; the particle stays exactly when both side cells are closed |
| WaterParticle.FlowConserves | src/waterParticle.h:40-66 | after the flow `p` is at its own new cell and the grid is a permutation of the old one |
| WaterParticle.AboveCell | src/waterParticle.h:72-76 | the occupant of the cell above, and `null` in the top row |
| WaterParticle.Step | src/waterParticle.h:15-88 | one water update as a value: the flow, then a swap with sand above the flowed cell; its properties are the lemmas around it |
| WaterParticle.StepConserves | src/waterParticle.h:15-88 | a whole update keeps every particle and every empty cell |
| WaterParticle.StepSinksSand | src/waterParticle.h:71-85 | a swap happens only with sand right above the flowed water: then the two trade cells and no other cell changes; with the top row, an empty cell or anything but sand above, the grid is as the flow left it |
| WaterParticle.FlowKeepsMembers | src/waterParticle.h:42-66 | every particle on the grid after the flow was on it before |
| WaterParticle.Fall | src/waterParticle.h:16-52 | gravity, then the walk toward the truncated `position + velocity`, as `Walk` over the old grid says |
| WaterParticle.FallAndSpread | src/waterParticle.h:16-69 | walk and side move together give exactly `Flow` of the old state |
| WaterParticle.Sink | src/waterParticle.h:71-85 | if the cell above holds sand, water and sand trade cells and positions with agreement kept for both; otherwise nothing changes |
| WaterParticle.Update | src/waterParticle.h:15-88 | one update ends in the state `Step` gives, with agreement kept and `updatedThisFrame` set; no other particle's velocity or marker changes |
| FireParticle.Create | src/fireParticle.h:9-13 | a new fire particle has id 4, the given position and zero velocity |
| FireParticle.Delta | src/fireParticle.h:28-29 | the velocity nudge `(rand() % 3 - 1) * 0.5` is one of -0.5, 0 and 0.5, and 0 exactly when the roll is 1 modulo 3 |
| FireParticle.Dies | src/fireParticle.h:23 | the burn-out test `rand() % 10 == 0` |
| FireParticle.JumpOf | src/fireParticle.h:31-53 | after the jump the fire is in bounds; what each kind of target does is stated by `JumpRule` |
| FireParticle.Jumped | src/fireParticle.h:40-43 | the grid after the jump: only the fire's old and new cells can differ, and nothing changes when the fire did not move |
| FireParticle.AheadCell | src/fireParticle.h:56-58 | there is a look-ahead cell exactly when `position + 2 * trunc(velocity)` is in bounds, and it is that cell's flat index, inside the grid |
| FireParticle.WaterAhead | src/fireParticle.h:58-65 | a hit is the look-ahead cell and holds a particle with id 3; conversely an in-bounds look-ahead cell that holds id 3 is a hit |
| FireParticle.AheadBurn | src/fireParticle.h:55-65 | the look-ahead as seen after the jump: a burn is the look-ahead cell, holds water and is never the cell the jump already set alight; conversely water at the look-ahead cell that the jump did not set alight is burned |
| FireParticle.Ignited | src/fireParticle.h:46-47 | a new fire replaces the named cell, when there is one in range; every other cell is kept |
| FireParticle.JumpRule | src/fireParticle.h:31-53 | a move goes straight to the truncated target, which was empty and not the fire's own cell; a burn happens at an in-bounds water target and the fire stays; a target off the grid stops the fire with zero velocity. Conversely an in-bounds empty target is moved into, an in-bounds water target is burned, and any other in-bounds occupant leaves the fire where it is, burning nothing |
| FireParticle.StopsAtEdge | src/fireParticle.h:36-65 | a target off the grid resets the velocity, moves nothing and sets nothing alight, not even by the look-ahead |
| FireParticle.BurnsOnlyWater | src/fireParticle.h:44-65 | both cells a fire sets alight held water before the update, neither is the fire's own cell, and they are different cells |
| FireParticle.Step | src/fireParticle.h:21-67 | one fire update as a value: burn out, or the nudge, the jump over the old grid and the look-ahead over the grid after the jump |
| FireParticle.AheadSkipsIgnited | src/fireParticle.h:44-65 | the look-ahead sees the cell the jump just set alight as fire, never as water |
| FireParticle.BurnOutEmptiesOne | src/fireParticle.h:23-25 | burning out empties exactly one cell and leaves every other cell as it was |
| FireParticle.IgnitedKeepsEmptyCount | src/fireParticle.h:46-47 | replacing an occupant with a new fire keeps the number of empty cells |
| FireParticle.LivingKeepsEmptyCount | src/fireParticle.h:27-65 | a fire that does not burn out keeps the number of empty cells: it moves only into an empty cell and converts only occupied cells |
| FireParticle.Ignite | src/fireParticle.h:46-47 | the occupant of an in-bounds cell is replaced by a fresh fire with id 4, zero velocity and the cell as its position; agreement holds and no other cell changes |
| FireParticle.Leap | src/fireParticle.h:27-53 | nudge the velocity, then move, burn or stop exactly as `JumpOf` over the old grid says; the grid is the old one with that move and that burn; a fresh fire with id 4 and zero velocity is made exactly when the jump burns, and it stands at the burned cell |
| FireParticle.LookAhead | src/fireParticle.h:55-66 | water at `position + 2 * trunc(velocity)` is replaced by a fresh fire with id 4 and zero velocity at that cell, exactly when `WaterAhead` over the grid before finds it there; otherwise nothing changes |
| FireParticle.Update | src/fireParticle.h:21-70 | burning out clears only the fire's own cell, changes no velocity or position and makes no fire; otherwise the fire ends where `Step` says, the grid is the old one with its move and both burns, and a fresh fire with id 4 and zero velocity stands at each cell `Step` burns, and at no other; agreement holds and `updatedThisFrame` is set either way |
| StoneParticle.Create | src/stoneParticle.h:9-12 | a new stone has id 2, the given position and zero velocity |
| StoneParticle.Update | src/stoneParticle.h:16-18 | the grid, the stone's position, velocity and marker are unchanged |
| StoneParticle.UpdateColor | src/stoneParticle.h:27-29 | nothing the model holds changes |
| Prototype.ClampBrush | python_src/main.py:75-76 | the brush size after a wheel event is in [1, 20], equal to the new size when that is in range and to the nearer bound otherwise |
| Prototype.ClampBrushIdempotent | python_src/main.py:76 | clamping a clamped size again changes nothing |
| Prototype.NextType | python_src/main.py:80 | the next type index is in [0, 2): the one after, or 0 after the last |
| Prototype.NextTypeTwice | python_src/main.py:45-80 | with two types, two presses of Tab return to the starting type |
| Prototype.BrushLopsided | python_src/main.py:86-90 | the half-open ranges make the brush lopsided: the cell `b` left of the centre is painted, the cell `b` right of it is not |
| Prototype.Board.constructor | python_src/main.py:51 | the grid starts with 108 rows by 192 columns, all empty |
| Prototype.Grain.constructor | python_src/main.py:14-16 | a new `Sand` or `Stone` records its class and the coordinates it was given |
| Prototype.Board.Valid | python_src/main.py:28-31 | grid/coordinate agreement: the grid is 108 by 192 and every grain's `x`, `y` name the cell that holds it; every fall keeps it |
| Prototype.InBrush | python_src/main.py:86-90 | the brush's disc test: inside the half-open square around the centre and within the squared radius |
| Prototype.OffsetsInRange | python_src/main.py:22-23 | a shuffle of the three candidates' offsets holds -1, 0 and 1, each once |
| Prototype.Available | python_src/main.py:24-25 | `available_positions`: the shuffled candidates, in order, whose cell passed the test |
| Prototype.OpenIn | python_src/main.py:25 | the test of the comprehension on the flattened cells: in bounds and 0 |
| Prototype.BelowIn | python_src/main.py:24-25 | the tests of the three cells below, at offsets -1, 0 and 1, each the comprehension's test |
| Prototype.AvailableSound | python_src/main.py:24-25 | every available position is a candidate one row down at one of the shuffled offsets, and its cell passed the test |
| Prototype.AvailableComplete | python_src/main.py:24-25 | every candidate whose cell passed the test is available |
| Prototype.Choice | python_src/main.py:24-27 | a choice exists iff some candidate passed the test, and it is such a candidate one row down within one column |
| Prototype.FallIn | python_src/main.py:20-31 | `fall` on the flattened cells: in the bottom row or with no free candidate the cells stay; otherwise the sand's cell becomes 0 and the chosen cell holds the sand |
| Prototype.FallInRule | python_src/main.py:20-31 | a fall happens iff one of the three cells below is free; it goes one row down and within one column into a cell that held 0, and only those two cells change; otherwise nothing changes |
| Prototype.Find | python_src/main.py:102-104 | where a grain sits in the flattened cells: a found index holds it, and none is found only when it is absent |
| Prototype.Turn | python_src/main.py:102-104 | one iteration of the loop on values: a sand entry falls from the cell it holds by then; a stone or 0 changes nothing |
| Prototype.TurnRule | python_src/main.py:102-104 | a turn changes nothing, or it moves the turn's own sand from its cell to a cell that held 0, one row down and within one column, and changes nothing else |
| Prototype.Pass | python_src/main.py:102-104 | the loop on values over a prefix of the shuffled snapshot |
| Prototype.TurnTracks | python_src/main.py:102-104 | a grain held by one cell is still held by exactly one cell after a turn; it has not moved unless the turn was its own, and then it went at most one row down and one column aside |
| Prototype.PassTracks | python_src/main.py:102-104 | a grain held by one cell is held by exactly one cell throughout the pass; it has not moved while its entry has not come, and after one turn of its own it is at most one row lower and one column aside |
| Prototype.PassMovesLittle | python_src/main.py:97-104 | a sand listed once in the shuffled snapshot ends the pass at most one row lower and one column aside from where it began |
| Prototype.TurnKeepsStones | python_src/main.py:102-104 | no turn moves a stone |
| Prototype.PassKeepsStones | python_src/main.py:97-104 | every cell holding a stone still holds it after the pass |
| Prototype.PassKeepsGrains | python_src/main.py:97-104 | the pass only rearranges the cells: every grain and every 0 is kept, counted |
| Prototype.CountOnce | python_src/main.py:98 | a grain held by exactly one cell occurs once in the flattened cells |
| Prototype.Board.Free | python_src/main.py:25 | the test of the comprehension: in bounds and 0 |
| Prototype.Board.Below | python_src/main.py:22-25 | the test for the three cells below, at offsets -1, 0 and 1 |
| Prototype.Board.Snapshot | python_src/main.py:98 | `list(itertools.chain(*grid))`: the cells row after row |
| Prototype.Board.SnapshotAt | python_src/main.py:98 | the snapshot holds cell (x, y) at flat index `y * 192 + x` |
| Prototype.Board.BelowAgrees | python_src/main.py:24-25 | the board's test for the three cells below and the test on the snapshot agree |
| Prototype.Board.FreeAgrees | python_src/main.py:25 | the board's test for a cell and the test on the snapshot agree |
| Prototype.Board.SnapshotOnly | python_src/main.py:98 | under agreement a grain occurs in the snapshot exactly at its own cell, and `Find` finds it there |
| Prototype.Board.Move | python_src/main.py:28-31 | the three writes of a fall: agreement and the set of grains are kept, the grain takes the new coordinates, and the snapshot is the old one with the old cell emptied and the new cell holding the grain |
| Prototype.Board.Fall | python_src/main.py:20-31 | the snapshot after the call is `FallIn` of the snapshot before, and the sand is where `Choice` puts it, or where it was; agreement and the set of grains are kept |
| Prototype.Board.SnapshotInGrains | python_src/main.py:98 | every grain in the flattened snapshot is on the board |
| Prototype.Board.GrainOnBoard | python_src/main.py:98 | under agreement every grain of the board sits at its own cell |
| Prototype.Board.Visit | python_src/main.py:102-104 | one iteration: the snapshot after it is `Turn` of the snapshot before; a stone or 0 stays put |
| Prototype.Board.Sweep | python_src/main.py:102-104 | the loop over any sequence of 0s and grains of the board: the snapshot after it is `Pass` of the snapshot before over all of the shuffled cells, agreement and the set of grains are kept, and the sands that fell are those of the shuffled cells, in order |
| Prototype.Board.Tick | python_src/main.py:97-104 | the whole pass: the snapshot ends as `Pass` says; every sand has moved at most one row down and one column aside; every stone is where it was and still on the board; the sands that fell are, counted, those of the snapshot |
| Prototype.Board.Stamp | python_src/main.py:82-95 | with a button down, each in-bounds cell of the brush gets a fresh grain of the current type at that cell (left button, which wins) or 0 (right button); no other cell is written |
| Prototype.SandsOf | python_src/main.py:102-104 | the entries the loop calls `fall` on: the cells for which `isinstance(cell, Sand)` holds, in order |
| Prototype.SandsOfSnoc | python_src/main.py:102-104 | one more cell adds itself to the sands when it is a sand, and nothing otherwise |
| Prototype.SandsOfCount | python_src/main.py:102-104 | the sands picked out of the cells are each cell holding sand, as often as it occurs, and nothing else |
| Prototype.SandsOfShuffle | python_src/main.py:98-104 | any shuffle of the snapshot picks out the same sands, each as often, and only grains of the snapshot |

## Left out

- Rendering, SDL and pygame calls, colours and palettes, and `main.cpp` (event loop, draw test) are
  I/O. They carry no simulation logic.
- A tick scheduler for the C++ rules and the reset of `updatedThisFrame`: neither appears in the
  headers.
- Heap lifetime. `delete` of the converted water and the burned-out fire object that is never freed
  are not modelled. Removal is the cell becoming `null`.
- IEEE-754 float accumulation: velocities are exact reals with explicit truncation toward zero.
- The distributions of `rand()`, `std::shuffle`, `std::random_shuffle`, `random.shuffle` and
  `random.choice`: their outcomes are parameters. A shuffle is any permutation, and `random.choice`
  is `available[pick % len(available)]`.
- Mouse decoding and pygame event handling (main.py:61-85). `Stamp` takes the centre, the size, both
  button states and the current type as parameters.
- Python `Stone.update`: an empty body that the update pass never calls.
- `PARTICLE_SIZE` and `GRAVITY` are defined outside src/globals.h and the particle headers.
  src/globals.h:6-7 defines `WIDTH` 1280 and `HEIGHT` 720, and src/globals.h:9 has a lower-case
  `gravity = 10.0f`. The model takes `GRAVITY / 50` as a positive gravity increment, and
  `WIDTH / PARTICLE_SIZE` and `HEIGHT / PARTICLE_SIZE` as positive dimensions.
- SandParticle.Update: requires `velocity[1] >= 0`. Every reachable state meets this, because velocity
  starts at zero, only gains gravity and is only reset to zero. The bounds test has no `y >= 0` check,
  so an upward walk would index outside the grid in C++. The model does not give that case a meaning.
- WaterParticle.Update: requires `velocity[1] >= 0`, for the same reason as sand.
- SandParticle.Fall: requires `velocity[1] >= 0`, for the same reason.
- WaterParticle.Fall: requires `velocity[1] >= 0`, for the same reason.
- SandParticle.Update: the shuffled `directions` are taken as any order of {-1, 0, 1}, which is what
  shuffling the array of lines 65-66 yields. Water's are any order of {-1, 1, 0}, and the Python
  offsets are any order of {0, -1, 1}.
- WaterParticle.FallAndSpread: requires `velocity[1] >= 0`, for the same reason as sand.
- SandParticle.Step: requires `velocity[1] >= 0`, for the same reason as SandParticle.Update: every reachable velocity has `velocity[1] >= 0`.
- SandParticle.StepVelocity: requires `velocity[1] >= 0`, for the same reason as SandParticle.Update: every reachable velocity has `velocity[1] >= 0`.
- SandParticle.StepLands: requires `velocity[1] >= 0`, for the same reason as SandParticle.Update: every reachable velocity has `velocity[1] >= 0`.
- SandParticle.SettleSeesGrid: requires `velocity[1] >= 0`, for the same reason as SandParticle.Update: every reachable velocity has `velocity[1] >= 0`.
- SandParticle.SettleRule: requires `velocity[1] >= 0`, for the same reason as SandParticle.Update: every reachable velocity has `velocity[1] >= 0`.
- WaterParticle.Flow: requires `velocity[1] >= 0`, for the same reason as SandParticle.Update: every reachable velocity has `velocity[1] >= 0`.
- WaterParticle.FlowVelocity: requires `velocity[1] >= 0`, for the same reason as SandParticle.Update: every reachable velocity has `velocity[1] >= 0`.
- WaterParticle.SideNeverOwnCell: requires `velocity[1] >= 0`, for the same reason as SandParticle.Update: every reachable velocity has `velocity[1] >= 0`.
- WaterParticle.SideRule: requires `velocity[1] >= 0`, for the same reason as SandParticle.Update: every reachable velocity has `velocity[1] >= 0`.
- WaterParticle.FlowConserves: requires `velocity[1] >= 0`, for the same reason as SandParticle.Update: every reachable velocity has `velocity[1] >= 0`.
- WaterParticle.Step: requires `velocity[1] >= 0`, for the same reason as SandParticle.Update: every reachable velocity has `velocity[1] >= 0`.
- WaterParticle.StepConserves: requires `velocity[1] >= 0`, for the same reason as SandParticle.Update: every reachable velocity has `velocity[1] >= 0`.
- WaterParticle.StepSinksSand: requires `velocity[1] >= 0`, for the same reason as SandParticle.Update: every reachable velocity has `velocity[1] >= 0`.
- WaterParticle.FlowKeepsMembers: requires `velocity[1] >= 0`, for the same reason as SandParticle.Update: every reachable velocity has `velocity[1] >= 0`.
- The `updatedThisFrame` marker of a new particle: the `Particle` base class that declares it is
  defined outside the particle headers and src/globals.h, and none of the particle constructors sets
  the marker. The Create methods, `Ignite` and the fire rule's new fires therefore promise nothing
  about it.
