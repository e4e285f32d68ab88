/**
 * The enemy pool the game's systems work on: three parallel slices (the
 * enemies' transforms, their movement settings and their alive flags),
 * indexed by enemy. The spawn system revives the first dead enemy, the kill
 * system retires every living enemy that has walked past a line, and both
 * `prepare` variants park all enemies at the spawn point. The game crate
 * and the binary crate each carry a spawn system; they differ only in where
 * the spawn position comes from, so they share these definitions.
 */
module EnemyPools {
  import opened Wrappers
  import opened Common
  import Seqs

  datatype Pool = Pool(transforms: seq<Transform>, movement: seq<MovementData>, alive: seq<bool>)

  predicate IsDead(alive: bool)
  {
    !alive
  }

  /** `is_alive.iter().position(|alive| !*alive)`: the lowest dead enemy, if any. */
  function FirstDead(alive: seq<bool>): (r: Option<nat>)
    ensures r.None? <==> forall j :: 0 <= j < |alive| ==> alive[j]
    ensures r.Some? ==> r.value < |alive| && !alive[r.value] && forall j :: 0 <= j < r.value ==> alive[j]
  {
    Seqs.FindFirst(alive, IsDead)
  }

  /** The number of living enemies. */
  function AliveCount(alive: seq<bool>): (n: nat)
    ensures n <= |alive|
  {
    if alive == [] then 0 else AliveCount(alive[..|alive| - 1]) + (if alive[|alive| - 1] then 1 else 0)
  }

  /** Reviving one dead enemy adds exactly one to the living. */
  lemma {:induction false} AliveCountRevive(alive: seq<bool>, i: nat)
    requires i < |alive| && !alive[i]
    ensures AliveCount(alive[i := true]) == AliveCount(alive) + 1
    decreases |alive|
  {
    var last := |alive| - 1;
    assert alive[i := true][..last] == if i < last then alive[..last][i := true] else alive[..last];
    if i < last {
      AliveCountRevive(alive[..last], i);
    }
  }

  /** All enemies alive is the same as the count being full. */
  lemma {:induction false} AliveCountFull(alive: seq<bool>)
    ensures AliveCount(alive) == |alive| <==> forall j :: 0 <= j < |alive| ==> alive[j]
    decreases |alive|
  {
    if alive != [] {
      var last := |alive| - 1;
      AliveCountFull(alive[..last]);
      assert forall j :: 0 <= j < last ==> alive[..last][j] == alive[j];
    }
  }

  /** The translations part of `prepare`: every enemy is moved to `pos`. */
  function Placed(ts: seq<Transform>, pos: Vec3): (r: seq<Transform>)
    ensures |r| == |ts|
  {
    seq(|ts|, i requires 0 <= i < |ts| => ts[i].(translation := pos))
  }

  /** The movement part of `prepare`: every enemy stands still. */
  function Stopped(ms: seq<MovementData>): (r: seq<MovementData>)
    ensures |r| == |ms|
  {
    seq(|ms|, i requires 0 <= i < |ms| => ms[i].(velocity := VEC2_ZERO))
  }

  /** `prepare` places every enemy at `pos` and stops it, keeping its rotation and scale; doing it twice changes nothing more. */
  lemma PrepareParks(ts: seq<Transform>, ms: seq<MovementData>, pos: Vec3)
    ensures forall i :: 0 <= i < |ts| ==> Placed(ts, pos)[i] == Transform(pos, ts[i].rotation, ts[i].scale)
    ensures forall i :: 0 <= i < |ms| ==> Stopped(ms)[i].velocity == VEC2_ZERO
    ensures Placed(Placed(ts, pos), pos) == Placed(ts, pos) && Stopped(Stopped(ms)) == Stopped(ms)
  {
  }

  /** The spawn system cannot panic: the enemy it would revive has a transform and a movement entry. */
  predicate SpawnFits(p: Pool)
  {
    FirstDead(p.alive).Some? ==> FirstDead(p.alive).value < |p.transforms| && FirstDead(p.alive).value < |p.movement|
  }

  /**
   * `EnemySpawnSystem::execute`: the lowest dead enemy is placed at `pos`,
   * given velocity `vel` and marked alive, and its index is returned;
   * with nobody dead the pool is returned as it was.
   */
  function Spawn(p: Pool, pos: Vec3, vel: Vec2): (r: (Pool, Option<nat>))
    requires SpawnFits(p)
  {
    match FirstDead(p.alive)
    case None => (p, None)
    case Some(i) =>
      (Pool(p.transforms[i := p.transforms[i].(translation := pos)],
            p.movement[i := p.movement[i].(velocity := vel)],
            p.alive[i := true]),
       Some(i))
  }

  /** What a spawn does: which enemy it picks, what that enemy becomes, that nobody else changes and that one more enemy lives. */
  lemma SpawnRevivesLowestDead(p: Pool, pos: Vec3, vel: Vec2)
    requires SpawnFits(p)
    ensures var (q, r) := Spawn(p, pos, vel);
      && (r.None? <==> forall j :: 0 <= j < |p.alive| ==> p.alive[j])
      && (r.None? ==> q == p)
      && (r.Some? ==>
            var i := r.value;
            && i < |p.alive| && !p.alive[i] && (forall j :: 0 <= j < i ==> p.alive[j])
            && |q.transforms| == |p.transforms| && |q.movement| == |p.movement| && |q.alive| == |p.alive|
            && q.alive[i] && q.transforms[i].translation == pos && q.movement[i].velocity == vel
            && q.transforms[i].rotation == p.transforms[i].rotation && q.transforms[i].scale == p.transforms[i].scale
            && (forall j :: 0 <= j < |p.alive| && j != i ==> q.alive[j] == p.alive[j])
            && (forall j :: 0 <= j < |p.transforms| && j != i ==> q.transforms[j] == p.transforms[j])
            && (forall j :: 0 <= j < |p.movement| && j != i ==> q.movement[j] == p.movement[j])
            && AliveCount(q.alive) == AliveCount(p.alive) + 1)
  {
    var r := FirstDead(p.alive);
    if r.Some? {
      AliveCountRevive(p.alive, r.value);
    }
  }

  /** Spawning into a full pool refuses, whatever the count of the living says. */
  lemma SpawnRefusesExactlyWhenAllAlive(p: Pool, pos: Vec3, vel: Vec2)
    requires SpawnFits(p)
    ensures Spawn(p, pos, vel).1.None? <==> AliveCount(p.alive) == |p.alive|
  {
    AliveCountFull(p.alive);
  }

  /** An enemy the kill system retires: alive, and not past the line. */
  predicate Doomed(p: Pool, i: nat, killX: real)
  {
    i < |p.alive| && p.alive[i] && i < |p.transforms| && p.transforms[i].translation.x <= killX
  }

  /** The kill system cannot panic: every living enemy has a transform, and every doomed one a movement entry. */
  predicate KillFits(p: Pool, killX: real)
  {
    && (forall i :: 0 <= i < |p.alive| && p.alive[i] ==> i < |p.transforms|)
    && (forall i :: 0 <= i < |p.alive| && Doomed(p, i, killX) ==> i < |p.movement|)
  }

  /**
   * `EnemyKillSystem::execute`: every doomed enemy is marked dead, moved to
   * `resetPos` and stopped; every other entry stays as it was.
   */
  function Kill(p: Pool, killX: real, resetPos: Vec3): (q: Pool)
    ensures |q.transforms| == |p.transforms| && |q.movement| == |p.movement| && |q.alive| == |p.alive|
  {
    Pool(seq(|p.transforms|, i requires 0 <= i < |p.transforms| =>
               if Doomed(p, i, killX) then p.transforms[i].(translation := resetPos) else p.transforms[i]),
         seq(|p.movement|, i requires 0 <= i < |p.movement| =>
               if Doomed(p, i, killX) then p.movement[i].(velocity := VEC2_ZERO) else p.movement[i]),
         seq(|p.alive|, i requires 0 <= i < |p.alive| => if Doomed(p, i, killX) then false else p.alive[i]))
  }

  /**
   * After a kill pass every enemy still alive is past the line; the dead and
   * the enemies past the line are untouched; every retired enemy sits at the
   * reset position, standing still.
   */
  lemma KillLeavesOnlyPastTheLine(p: Pool, killX: real, resetPos: Vec3)
    requires KillFits(p, killX)
    ensures var q := Kill(p, killX, resetPos);
      && (forall i :: 0 <= i < |q.alive| && q.alive[i] ==> i < |q.transforms| && q.transforms[i].translation.x > killX)
      && (forall i :: 0 <= i < |p.alive| && !p.alive[i] ==>
            !q.alive[i] && (i < |p.transforms| ==> q.transforms[i] == p.transforms[i])
            && (i < |p.movement| ==> q.movement[i] == p.movement[i]))
      && (forall i :: 0 <= i < |p.alive| && p.alive[i] && p.transforms[i].translation.x > killX ==>
            q.alive[i] && q.transforms[i] == p.transforms[i] && (i < |p.movement| ==> q.movement[i] == p.movement[i]))
      && (forall i :: 0 <= i < |p.alive| && p.alive[i] && p.transforms[i].translation.x <= killX ==>
            !q.alive[i] && q.transforms[i].translation == resetPos && q.movement[i].velocity == VEC2_ZERO)
  {
  }

  /** A second kill pass right after the first changes nothing. */
  lemma KillIdempotent(p: Pool, killX: real, resetPos: Vec3)
    requires KillFits(p, killX)
    ensures Kill(Kill(p, killX, resetPos), killX, resetPos) == Kill(p, killX, resetPos)
  {
    var q := Kill(p, killX, resetPos);
    forall i | 0 <= i < |q.alive|
      ensures !Doomed(q, i, killX)
    {
    }
    assert Kill(q, killX, resetPos).alive == q.alive;
    assert Kill(q, killX, resetPos).transforms == q.transforms;
    assert Kill(q, killX, resetPos).movement == q.movement;
  }

  /** A kill pass never brings an enemy to life. */
  lemma KillNeverRevives(p: Pool, killX: real, resetPos: Vec3)
    ensures forall i :: 0 <= i < |p.alive| && Kill(p, killX, resetPos).alive[i] ==> p.alive[i]
  {
  }

  /** The three slices a system is handed, as a pool. */
  function PoolOf(transforms: array<Transform>, movement: array<MovementData>, isAlive: array<bool>): Pool
    reads transforms, movement, isAlive
  {
    Pool(transforms[..], movement[..], isAlive[..])
  }

  /** The scan both spawn systems start with: the lowest dead enemy, found by walking the flags. */
  method FindFirstDead(isAlive: array<bool>) returns (r: Option<nat>)
    ensures r == FirstDead(isAlive[..])
  {
    var idx := 0;
    while idx < isAlive.Length && isAlive[idx]
      invariant idx <= isAlive.Length
      invariant forall j :: 0 <= j < idx ==> isAlive[j]
    {
      idx := idx + 1;
    }
    r := if idx == isAlive.Length then None else Some(idx);
  }

  /** The two loops of `prepare`, shared by both spawn systems. */
  method PrepareSlices(pos: Vec3, transforms: array<Transform>, movement: array<MovementData>)
    modifies transforms, movement
    ensures transforms[..] == Placed(old(transforms[..]), pos)
    ensures movement[..] == Stopped(old(movement[..]))
  {
    for i := 0 to transforms.Length
      invariant forall j :: 0 <= j < i ==> transforms[j] == old(transforms[j]).(translation := pos)
      invariant forall j :: i <= j < transforms.Length ==> transforms[j] == old(transforms[j])
      invariant movement[..] == old(movement[..])
    {
      transforms[i] := transforms[i].(translation := pos);
    }
    for i := 0 to movement.Length
      invariant forall j :: 0 <= j < i ==> movement[j] == old(movement[j]).(velocity := VEC2_ZERO)
      invariant forall j :: i <= j < movement.Length ==> movement[j] == old(movement[j])
      invariant transforms[..] == Placed(old(transforms[..]), pos)
    {
      movement[i] := movement[i].(velocity := VEC2_ZERO);
    }
  }

  /** The body of `execute` after the scan, shared by both spawn systems. */
  method SpawnInto(pos: Vec3, vel: Vec2, transforms: array<Transform>, movement: array<MovementData>, isAlive: array<bool>)
    returns (r: Option<nat>)
    requires SpawnFits(PoolOf(transforms, movement, isAlive))
    modifies transforms, movement, isAlive
    ensures (PoolOf(transforms, movement, isAlive), r) == Spawn(old(PoolOf(transforms, movement, isAlive)), pos, vel)
  {
    r := FindFirstDead(isAlive);
    if r.Some? {
      var i := r.value;
      transforms[i] := transforms[i].(translation := pos);
      movement[i] := movement[i].(velocity := vel);
      isAlive[i] := true;
    }
  }
}
