/** Enemy spawning at the top of each tick: air raiders and tanks gated by
    the level quota, the on-screen cap, their timers and the boss, and medic
    helicopters gated by their timer and the boss only. */
module Spawner {
  import opened Settings
  import opened Entities
  import opened Census
  import opened Runs

  /** The side an enemy enters from: x = 0 if the roll is above one half,
      otherwise the right edge. */
  function Side(roll: Unit): (x: real)
    ensures x == 0.0 || x == SCREEN_WIDTH as real
  {
    if roll > 0.5 then 0.0 else SCREEN_WIDTH as real
  }

  /** An air raider: four draws (type, side, height, vertical speed). */
  function AirRaider(level: int, now: int, rng: nat -> Unit, c: nat): (e: Enemy)
    requires IsLevel(level)
    ensures e.kind == Helicopter || e.kind == Jet
    ensures e.health == (if e.kind == Helicopter then 10 else 20)
    ensures e.x == 0.0 || e.x == SCREEN_WIDTH as real
    ensures 60.0 <= e.y <= 300.0 && -1.0 <= e.vy <= 1.0
    ensures e.canFire && e.rateMod == level && e.lastFire == now
  {
    var kind := if rng(c) > 0.5 then Helicopter else Jet;
    var x := Side(rng(c + 1));
    var y := Uniform(0.1 * SCREEN_HEIGHT as real, 0.5 * SCREEN_HEIGHT as real, rng(c + 2));
    NewEnemy(kind, x, y, if level == 1 then 2.0 else 3.0, if kind == Helicopter then 10 else 20,
             50, 30, true, level, now, rng(c + 3))
  }

  /** A tank on the ground: one draw (side). */
  function GroundRaider(level: int, now: int, roll: Unit): (e: Enemy)
    requires IsLevel(level)
    ensures e.kind == Tank && e.health == 50 && e.y == 560.0 && e.vy == 0.0
    ensures e.x == 0.0 || e.x == SCREEN_WIDTH as real
    ensures e.canFire && e.rateMod == level && e.lastFire == now
  {
    NewEnemy(Tank, Side(roll), (SCREEN_HEIGHT - 40) as real, if level == 2 then 1.0 else 1.5, 50,
             80, 40, true, level, now, roll)
  }

  /** A medic helicopter: three draws (side, height, vertical speed). It
      never fires and dies to any hit. */
  function Medevac(now: int, rng: nat -> Unit, c: nat): (e: Enemy)
    ensures e.kind == Medic && e.health == 1 && !e.canFire && e.rateMod == 1
    ensures e.x == 0.0 || e.x == SCREEN_WIDTH as real
    ensures 60.0 <= e.y <= 300.0 && -1.0 <= e.vy <= 1.0
  {
    var x := Side(rng(c));
    var y := Uniform(0.1 * SCREEN_HEIGHT as real, 0.5 * SCREEN_HEIGHT as real, rng(c + 1));
    NewEnemy(Medic, x, y, 3.0, 1, 50, 30, false, 1, now, rng(c + 2))
  }

  /** The shared gate of air and ground spawns, evaluated once per tick. */
  predicate Open(r: Run) {
    r.spawned < r.quota && !r.bossActive && RegularCount(r.enemies) < MAX_ENEMIES_ON_SCREEN
  }

  function AirWave(r: Run, now: int, rng: nat -> Unit): Run
    requires IsLevel(r.level)
  {
    r.(enemies := r.enemies + [AirRaider(r.level, now, rng, r.cursor)],
       lastAir := now, spawned := r.spawned + 1, cursor := r.cursor + 4)
  }

  function GroundWave(r: Run, now: int, rng: nat -> Unit): Run
    requires IsLevel(r.level)
  {
    r.(enemies := r.enemies + [GroundRaider(r.level, now, rng(r.cursor))],
       lastGround := now, spawned := r.spawned + 1, cursor := r.cursor + 1)
  }

  function MedicWave(r: Run, now: int, rng: nat -> Unit): Run {
    r.(enemies := r.enemies + [Medevac(now, rng, r.cursor)], lastMedic := now, cursor := r.cursor + 3)
  }

  /** The spawning block of one tick. The ground spawn is checked after the
      air spawn without re-checking the gate, so both can happen in the
      same tick. */
  function Spawn(r: Run, now: int, rng: nat -> Unit): (r': Run)
    requires IsLevel(r.level)
    ensures r' == r.(enemies := r'.enemies, spawned := r'.spawned, lastAir := r'.lastAir,
                     lastGround := r'.lastGround, lastMedic := r'.lastMedic, cursor := r'.cursor)
    ensures r.enemies <= r'.enemies
    ensures r'.spawned > r.spawned ==> Open(r)
    ensures r'.spawned <= r.spawned + (if r.level >= 2 then 2 else 1)
    ensures r.bossActive ==> r' == r
    ensures forall i :: |r.enemies| <= i < |r'.enemies| ==>
              r'.enemies[i].kind != Boss && Fit(r'.enemies[i])
  {
    var air := Open(r) && now - r.lastAir > ENEMY_AIR_SPAWN_RATE;
    var ground := Open(r) && r.level >= 2 && now - r.lastGround > ENEMY_GROUND_SPAWN_RATE;
    var medic := !r.bossActive && now - r.lastMedic > MEDIC_SPAWN_RATE;
    var r1 := if air then AirWave(r, now, rng) else r;
    var r2 := if ground then GroundWave(r1, now, rng) else r1;
    if medic then MedicWave(r2, now, rng) else r2
  }

  /** Each wave's gate, in both directions. An air raider arrives exactly
      when the shared gate is open and more than 2000 ms have passed since
      the last; a tank exactly when the gate is open, the level is 2 or
      more and more than 20000 ms have passed; a medic exactly when no boss
      is active and more than 19000 ms have passed, whatever the quota and
      the cap. Each arrival resets its own timer to now; the raiders are
      counted, the medic is not; they join in that order, each built from
      the next unused random draws. */
  lemma SpawnWhenDue(r: Run, now: int, rng: nat -> Unit)
    requires IsLevel(r.level)
    ensures var r' := Spawn(r, now, rng);
            var air := Open(r) && now - r.lastAir > ENEMY_AIR_SPAWN_RATE;
            var ground := Open(r) && r.level >= 2 && now - r.lastGround > ENEMY_GROUND_SPAWN_RATE;
            var medic := !r.bossActive && now - r.lastMedic > MEDIC_SPAWN_RATE;
            var c1 := r.cursor + (if air then 4 else 0);
            var c2 := c1 + (if ground then 1 else 0);
            r'.lastAir == (if air then now else r.lastAir) &&
            r'.lastGround == (if ground then now else r.lastGround) &&
            r'.lastMedic == (if medic then now else r.lastMedic) &&
            r'.spawned == r.spawned + (if air then 1 else 0) + (if ground then 1 else 0) &&
            r'.cursor == c2 + (if medic then 3 else 0) &&
            r'.enemies == r.enemies + (if air then [AirRaider(r.level, now, rng, r.cursor)] else []) +
                                      (if ground then [GroundRaider(r.level, now, rng(c1))] else []) +
                                      (if medic then [Medevac(now, rng, c2)] else [])
  {
  }

  /** Adding one enemy that is not a boss: the regular count rises by one
      exactly when it is regular, and the boss count stays. */
  lemma CensusArrival(es: seq<Enemy>, e: Enemy)
    requires e.kind != Boss
    ensures RegularCount(es + [e]) == RegularCount(es) + (if e.kind == Medic then 0 else 1)
    ensures CountOf(es + [e], Boss) == CountOf(es, Boss)
  {
    CensusAppend(es, [e]);
    assert CountOf([e], Boss) == 0;
  }

  /** The spawned counter counts exactly the regular enemies spawned, and no
      boss is spawned here. */
  lemma SpawnCensus(r: Run, now: int, rng: nat -> Unit)
    requires IsLevel(r.level)
    ensures RegularCount(Spawn(r, now, rng).enemies) == RegularCount(r.enemies) + (Spawn(r, now, rng).spawned - r.spawned)
    ensures CountOf(Spawn(r, now, rng).enemies, Boss) == CountOf(r.enemies, Boss)
  {
    var air := Open(r) && now - r.lastAir > ENEMY_AIR_SPAWN_RATE;
    var ground := Open(r) && r.level >= 2 && now - r.lastGround > ENEMY_GROUND_SPAWN_RATE;
    var r1 := if air then AirWave(r, now, rng) else r;
    var r2 := if ground then GroundWave(r1, now, rng) else r1;
    CensusArrival(r.enemies, AirRaider(r.level, now, rng, r.cursor));
    CensusArrival(r1.enemies, GroundRaider(r.level, now, rng(r1.cursor)));
    CensusArrival(r2.enemies, Medevac(now, rng, r2.cursor));
  }

  /** How far past the quota the spawned counter can go: one on levels
      that spawn tanks, none otherwise. */
  function Overshoot(level: int): int {
    if level >= 2 then 1 else 0
  }

  /** The quota is a bound up to the overshoot, and the on-screen cap of
      regular enemies likewise. */
  lemma SpawnBounds(r: Run, now: int, rng: nat -> Unit)
    requires IsLevel(r.level)
    requires r.spawned <= r.quota + Overshoot(r.level)
    requires RegularCount(r.enemies) <= MAX_ENEMIES_ON_SCREEN + Overshoot(r.level)
    ensures Spawn(r, now, rng).spawned <= r.quota + Overshoot(r.level)
    ensures RegularCount(Spawn(r, now, rng).enemies) <= MAX_ENEMIES_ON_SCREEN + Overshoot(r.level)
  {
    SpawnCensus(r, now, rng);
  }

  /** The quota can be overshot: on level 2, with one enemy to go and both
      timers due, an air raider and a tank arrive in the same tick. */
  lemma QuotaOvershoot(rng: nat -> Unit)
    ensures var r := Start(2, Bullets, 0).(spawned := 29);
            Spawn(r, 20001, rng).spawned == QuotaFor(2) + 1
  {
    var r := Start(2, Bullets, 0).(spawned := 29);
    assert RegularCount(r.enemies) == 0;
    assert Open(r);
  }
}
