/**
 * The enemy systems of the game crate (`nocoru::systems`): the spawn system,
 * which carries its own spawn position, and the kill system, which retires
 * enemies that reach a line on the x axis.
 */
module NocoruGameSystems {
  import opened Wrappers
  import opened Common
  import opened EnemyPools

  class EnemySpawnSystem {
    const spawnPos: Vec3
    const initialVelocity: Vec2

    /** `EnemySpawnSystem::new`. */
    constructor(spawnPos: Vec3, initialVelocity: Vec2)
      ensures this.spawnPos == spawnPos && this.initialVelocity == initialVelocity
    {
      this.spawnPos := spawnPos;
      this.initialVelocity := initialVelocity;
    }

    /** `prepare`: every enemy is parked at the spawn position and stopped. */
    method Prepare(transforms: array<Transform>, movement: array<MovementData>)
      modifies transforms, movement
      ensures transforms[..] == Placed(old(transforms[..]), spawnPos)
      ensures movement[..] == Stopped(old(movement[..]))
    {
      PrepareSlices(spawnPos, transforms, movement);
    }

    /** `execute`: revives the lowest dead enemy at the spawn position, or reports that none is dead. */
    method Execute(transforms: array<Transform>, movement: array<MovementData>, isAlive: array<bool>)
      returns (r: Option<nat>)
      requires SpawnFits(PoolOf(transforms, movement, isAlive))
      modifies transforms, movement, isAlive
      ensures (PoolOf(transforms, movement, isAlive), r)
           == Spawn(old(PoolOf(transforms, movement, isAlive)), spawnPos, initialVelocity)
    {
      r := SpawnInto(spawnPos, initialVelocity, transforms, movement, isAlive);
    }
  }

  class EnemyKillSystem {
    const killPosX: real

    /** `EnemyKillSystem::new`. */
    constructor(killPosX: real)
      ensures this.killPosX == killPosX
    {
      this.killPosX := killPosX;
    }

    /** `execute`: one pass over the alive flags, retiring every living enemy not past the line. */
    method Execute(resetPos: Vec3, transforms: array<Transform>, movement: array<MovementData>, isAlive: array<bool>)
      requires KillFits(PoolOf(transforms, movement, isAlive), killPosX)
      modifies transforms, movement, isAlive
      ensures PoolOf(transforms, movement, isAlive) == Kill(old(PoolOf(transforms, movement, isAlive)), killPosX, resetPos)
    {
      ghost var p := PoolOf(transforms, movement, isAlive);
      ghost var q := Kill(p, killPosX, resetPos);
      for idx := 0 to isAlive.Length
        invariant forall j :: 0 <= j < idx ==> isAlive[j] == q.alive[j]
        invariant forall j :: idx <= j < isAlive.Length ==> isAlive[j] == p.alive[j]
        invariant forall j :: 0 <= j < transforms.Length ==> transforms[j] == if j < idx then q.transforms[j] else p.transforms[j]
        invariant forall j :: 0 <= j < movement.Length ==> movement[j] == if j < idx then q.movement[j] else p.movement[j]
      {
        if !isAlive[idx] {
          continue;
        }
        if transforms[idx].translation.x > killPosX {
          continue;
        }
        assert Doomed(p, idx, killPosX);
        isAlive[idx] := false;
        transforms[idx] := transforms[idx].(translation := resetPos);
        movement[idx] := movement[idx].(velocity := VEC2_ZERO);
      }
      assert isAlive[..] == q.alive;
      assert transforms[..] == q.transforms;
      assert movement[..] == q.movement;
    }
  }
}
