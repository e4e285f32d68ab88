/**
 * The enemy spawn system of the game binary (`bin/nocoru`): the same system
 * as the game crate's, except that the spawn position is passed to every
 * call instead of being stored.
 */
module NocoruBinSystems {
  import opened Wrappers
  import opened Common
  import opened EnemyPools

  class EnemySpawnSystem {
    const initialVelocity: Vec2

    /** `EnemySpawnSystem::new`. */
    constructor(initialVelocity: Vec2)
      ensures this.initialVelocity == initialVelocity
    {
      this.initialVelocity := initialVelocity;
    }

    /** `prepare`: every enemy is parked at the given spawn position and stopped. */
    method Prepare(spawnPos: Vec3, transforms: array<Transform>, movement: array<MovementData>)
      modifies transforms, movement
      ensures transforms[..] == Placed(old(transforms[..]), spawnPos)
      ensures movement[..] == Stopped(old(movement[..]))
    {
      PrepareSlices(spawnPos, transforms, movement);
    }

    /** `execute`: revives the lowest dead enemy at the given spawn position, or reports that none is dead. */
    method Execute(spawnPos: Vec3, transforms: array<Transform>, movement: array<MovementData>, isAlive: array<bool>)
      returns (r: Option<nat>)
      requires SpawnFits(PoolOf(transforms, movement, isAlive))
      modifies transforms, movement, isAlive
      ensures (PoolOf(transforms, movement, isAlive), r)
           == Spawn(old(PoolOf(transforms, movement, isAlive)), spawnPos, initialVelocity)
    {
      r := SpawnInto(spawnPos, initialVelocity, transforms, movement, isAlive);
    }
  }
}
