/**
 * The static level description of shared/levels.js, consumed read-only by the
 * server (level id, spawn points) and by the client simulation (world bounds,
 * gravity, platforms). The concrete level values are an input, not part of
 * the model.
 */
module Levels {

  /** A point or a velocity, `{ x, y }`. */
  datatype Vec = Vec(x: real, y: real)

  const Zero := Vec(0.0, 0.0)

  /** World bounds and the gravity magnitude. */
  datatype World = World(width: real, height: real, gravity: real)

  /**
   * A static rectangle. `kind` is the optional `type` tag of the level data;
   * an untagged platform has the empty tag.
   */
  datatype Platform = Platform(x: real, y: real, width: real, height: real, kind: string)

  datatype Level = Level(id: string, world: World, spawnPoints: seq<Vec>, platforms: seq<Platform>)
}
