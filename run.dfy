/** The state of one play of a level: run_game's local variables together
    with the module-level globals it reads and writes (boss_active, the
    destroyed counter, the quota, the boss timer and attack mode). */
module Runs {
  import opened Settings
  import opened Entities
  import opened Pilots

  /** The boss's attack patterns, in the order it cycles through them. */
  datatype Attack = Bullets | Bombs | Beam

  datatype Run = Run(
    level: int,
    quota: int,              // total_enemies_for_level
    pilot: Pilot,
    bullets: seq<Bullet>,    // the player's
    enemies: seq<Enemy>,
    enemyBullets: seq<Bullet>,
    drops: seq<Drop>,
    lasers: seq<Laser>,
    warnings: seq<Warning>,
    score: int,
    spawned: int,            // enemies_spawned_in_level
    destroyed: int,          // enemies_destroyed_in_level
    lastAir: int,
    lastGround: int,
    lastMedic: int,
    lastFire: int,           // the player's last shot
    bossActive: bool,
    bossTimer: int,
    attack: Attack,          // current_boss_attack
    cursor: nat)             // how many random draws have been used

  /** The start of run_game: a fresh player, empty lists, zero counters and
      every timer at the current time. The attack mode is a global that
      run_game does not reset, so it is whatever the previous run left. */
  function Start(level: int, attack: Attack, now: int): Run
    requires IsLevel(level)
  {
    Run(level, QuotaFor(level), Recruit(), [], [], [], [], [], [], 0, 0, 0,
        now, now, now, now, false, now, attack, 0)
  }

  /** Where enemies and the boss aim: the player's centre. */
  function Target(r: Run): Point {
    Point(r.pilot.x as real, PLAYER_Y as real)
  }
}
