/** `StoneParticle` (src/stoneParticle.h): a particle that never moves. */
module StoneParticle {
  import opened Grid

  /** The constructor: id 2, the given position, zero velocity. */
  method Create(x: int, y: int) returns (p: Particle)
    ensures fresh(p)
    ensures p.id == STONE_ID && p.x == x && p.y == y && p.vx == 0.0 && p.vy == 0.0
  {
    p := new Particle(STONE_ID, x, y);
  }

  /** `StoneParticle::update`: an empty body. It writes nothing, not even
      `updatedThisFrame`, so the grid and the stone stay as they were. */
  method Update(world: World, p: Particle)
    requires world.Valid() && world.OnGrid(p) && p.id == STONE_ID
    ensures world.Valid() && world.OnGrid(p)
    ensures world.cells[..] == old(world.cells[..])
    ensures p.x == old(p.x) && p.y == old(p.y) && p.vx == old(p.vx) && p.vy == old(p.vy)
    ensures p.updatedThisFrame == old(p.updatedThisFrame)
  {
  }

  /** `StoneParticle::updateColor`: an empty body; colour is not modelled,
      and nothing else changes either. */
  method UpdateColor(world: World, p: Particle)
    requires world.Valid() && world.OnGrid(p) && p.id == STONE_ID
    ensures world.Valid() && world.OnGrid(p)
    ensures world.cells[..] == old(world.cells[..])
    ensures p.x == old(p.x) && p.y == old(p.y) && p.vx == old(p.vx) && p.vy == old(p.vy)
    ensures p.updatedThisFrame == old(p.updatedThisFrame)
  {
  }
}
