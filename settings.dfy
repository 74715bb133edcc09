/** The game's tuning table (GAME_SETTINGS and the screen constants of loser.py),
    the closed set of enemy kinds and upgrades, and the per-kind tables. */
module Settings {

  const SCREEN_WIDTH: int := 800
  const SCREEN_HEIGHT: int := 600

  const PLAYER_SPEED: int := 5
  const PLAYER_HEALTH: int := 100
  const PLAYER_WIDTH: int := 60
  const PLAYER_HEIGHT: int := 40
  /** The player never moves vertically: y stays at SCREEN_HEIGHT - 60. */
  const PLAYER_Y: int := 540

  const SHIELD_METER_MAX: real := 100.0
  const SHIELD_DRAIN_RATE: real := 0.15
  /** Percentage of SHIELD_METER_MAX restored by a shield pickup. */
  const SHIELD_REFILL_ON_PICKUP: real := 20.0

  const PLAYER_BULLET_DAMAGE: int := 10
  const BOMB_BULLET_DAMAGE: int := 50
  const BOMB_AOE: int := 150
  const RAPID_FIRE_RATE: int := 100
  const STANDARD_FIRE_RATE: int := 200

  const ENEMY_BULLET_SPEED: real := 5.0
  const ENEMY_BULLET_DAMAGE: int := 5
  const TANK_BULLET_DAMAGE: int := 10
  const BOSS_BULLET_DAMAGE: int := 10
  const BOSS_BOMB_DAMAGE: int := 20
  const BOSS_LASER_DAMAGE: int := 10
  const BOSS_LASER_SHIELD_DRAIN: real := 2.0
  const LASER_WARNING_DURATION: int := 1000
  const LASER_DURATION: int := 1000
  const BOSS_ATTACK_COOLDOWN: int := 3000
  const BOSS_BULLET_RATE: int := 200
  const BOSS_BOMB_RATE: int := 1000
  const BOSS_SIZE: int := 150

  const ENEMY_AIR_SPAWN_RATE: int := 2000
  const ENEMY_GROUND_SPAWN_RATE: int := 20000
  const MEDIC_SPAWN_RATE: int := 19000
  const MAX_ENEMIES_ON_SCREEN: int := 5

  const COIN_DROP_CHANCE: real := 0.3
  const SHIELD_DROP_CHANCE: real := 0.1
  const DROP_DESPAWN_TIME: int := 5000
  const DROP_FALL_SPEED: real := 2.0
  const COIN_PICKUP_VALUE: int := 10
  const MEDIC_PASS_BY_REWARD: int := 15

  /** Height at which bombs and drops come to rest. */
  const GROUND_Y: real := 540.0

  datatype Kind = Helicopter | Jet | Tank | Boss | Medic

  /** Enemies that count against the level quota and the on-screen cap. */
  predicate IsRegular(k: Kind) {
    k != Boss && k != Medic
  }

  /** SCORES: the medic entry is a penalty. */
  function ScoreFor(k: Kind): int {
    match k
    case Helicopter => 10
    case Jet => 20
    case Tank => 30
    case Boss => 100
    case Medic => -25
  }

  /** COIN_VALUES: the medic entry is a penalty. */
  function CoinsFor(k: Kind): int {
    match k
    case Helicopter => 5
    case Jet => 10
    case Tank => 15
    case Boss => 50
    case Medic => -20
  }

  datatype Upgrade = RapidFire | BombGun | ShieldUpgrade

  const ALL_UPGRADES: set<Upgrade> := {RapidFire, BombGun, ShieldUpgrade}

  function Cost(u: Upgrade): int {
    match u
    case RapidFire => 100
    case ShieldUpgrade => 100
    case BombGun => 200
  }

  /** The two levels the game defines (LEVEL_n_TOTAL_ENEMIES, BOSS_HEALTH_Ln). */
  predicate IsLevel(level: int) {
    level == 1 || level == 2
  }

  function QuotaFor(level: int): int
    requires IsLevel(level)
  {
    if level == 1 then 20 else 30
  }

  function BossHealthFor(level: int): int
    requires IsLevel(level)
  {
    if level == 1 then 500 else 1000
  }
}
