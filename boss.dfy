/** The boss: its arrival once the level's quota of kills is reached, and its
    attack state machine, which cycles bullets, bombs and a laser beam on a
    cooldown and always shows a warning before the beam. */
module BossFight {
  import opened Settings
  import opened Entities
  import opened Census
  import opened Runs

  function NextAttack(a: Attack): Attack {
    match a
    case Bullets => Bombs
    case Bombs => Beam
    case Beam => Bullets
  }

  /** The cycle has period three and visits every pattern. */
  lemma AttackCycle(a: Attack)
    ensures NextAttack(a) != a && NextAttack(NextAttack(a)) != a
    ensures NextAttack(NextAttack(NextAttack(a))) == a
  {
  }

  /** The boss enters, at the top centre, once the destroyed counter reaches
      the quota, and only once per run. */
  function Summon(r: Run, now: int): (r': Run)
    requires IsLevel(r.level)
    ensures r.destroyed >= r.quota && !r.bossActive ==>
              r'.bossActive && r'.bossTimer == now && |r'.enemies| == |r.enemies| + 1 &&
              r'.enemies[..|r.enemies|] == r.enemies && r'.enemies[|r.enemies|].kind == Boss &&
              r'.enemies[|r.enemies|].health == BossHealthFor(r.level) && Fit(r'.enemies[|r.enemies|])
    ensures !(r.destroyed >= r.quota && !r.bossActive) ==> r' == r
    ensures r' == r.(enemies := r'.enemies, bossActive := r'.bossActive, bossTimer := r'.bossTimer)
  {
    if r.destroyed >= r.quota && !r.bossActive then
      var boss := NewEnemy(Boss, (SCREEN_WIDTH / 2) as real, (SCREEN_HEIGHT / 4) as real, 1.0,
                           BossHealthFor(r.level), BOSS_SIZE, BOSS_SIZE, true, r.level, now, 0.0);
      r.(enemies := r.enemies + [boss], bossActive := true, bossTimer := now)
    else r
  }

  /** Summoning keeps the regular enemies and adds one boss exactly when
      it switches the boss on, which needs the quota of kills. */
  lemma SummonCensus(r: Run, now: int)
    requires IsLevel(r.level)
    ensures RegularCount(Summon(r, now).enemies) == RegularCount(r.enemies)
    ensures CountOf(Summon(r, now).enemies, Boss) ==
              CountOf(r.enemies, Boss) + (if Summon(r, now).bossActive && !r.bossActive then 1 else 0)
    ensures Summon(r, now).bossActive ==> Summon(r, now).destroyed >= r.quota || r.bossActive
  {
    if r.destroyed >= r.quota && !r.bossActive {
      var r' := Summon(r, now);
      assert r'.enemies == r.enemies + [r'.enemies[|r.enemies|]];
      CensusAppend(r.enemies, [r'.enemies[|r.enemies|]]);
    }
  }

  /** The cooldown half of the state machine: once more than the cooldown
      has passed, the pattern advances and the timer restarts; entering the
      beam pattern posts a warning from the lead enemy to the player. */
  function Rotate(r: Run, now: int): Run
    requires |r.enemies| > 0
  {
    if now - r.bossTimer > BOSS_ATTACK_COOLDOWN then
      var lead := r.enemies[0];
      r.(attack := NextAttack(r.attack), bossTimer := now,
         warnings := if r.attack == Bombs
                     then r.warnings + [Warning(Point(lead.x, lead.y), Target(r), now, LASER_WARNING_DURATION, false)]
                     else r.warnings)
    else r
  }

  /** The firing half: in the bullet pattern an aimed shot every 200 ms, in
      the bomb pattern a falling bomb every second, in the beam pattern a
      beam once no warning and no beam are left. The shooter is whatever
      enemy is first in the list, which is the boss only if nothing spawned
      before it is still alive. */
  function Barrage(r: Run, now: int, aim: Aim): Run
    requires |r.enemies| > 0
  {
    var lead := r.enemies[0];
    var from := Point(lead.x, lead.y);
    if r.attack == Bullets && now - lead.lastFire > BOSS_BULLET_RATE then
      var v := aim(from, Target(r), ENEMY_BULLET_SPEED * 1.5);
      r.(enemies := r.enemies[0 := lead.(lastFire := now)],
         enemyBullets := r.enemyBullets + [Bullet(lead.x, lead.y, v.x, v.y, BOSS_BULLET_DAMAGE, false, Straight)])
    else if r.attack == Bombs && now - lead.lastFire > BOSS_BOMB_RATE then
      r.(enemies := r.enemies[0 := lead.(lastFire := now)],
         enemyBullets := r.enemyBullets + [BossBomb(lead.x, lead.y)])
    else if r.attack == Beam && r.warnings == [] && r.lasers == [] then
      r.(lasers := [Laser(from, Target(r), now, LASER_DURATION, false, false)])
    else r
  }

  /** The boss's turn in a tick: nothing unless the boss is active and some
      enemy is on the list. The pattern advances only past the cooldown, a
      warning is posted exactly on the bombs-to-beam switch, and a beam is
      fired only when no warning and no beam are left, so never in the tick
      the beam pattern begins. */
  function Assault(r: Run, now: int, aim: Aim): (r': Run)
    ensures !(r.bossActive && |r.enemies| > 0) ==> r' == r
    ensures var rotate := r.bossActive && |r.enemies| > 0 && now - r.bossTimer > BOSS_ATTACK_COOLDOWN;
            r'.attack == (if rotate then NextAttack(r.attack) else r.attack) &&
            r'.bossTimer == (if rotate then now else r.bossTimer) &&
            r.warnings <= r'.warnings &&
            |r'.warnings| == |r.warnings| + (if rotate && r.attack == Bombs then 1 else 0)
    ensures r'.lasers == r.lasers ||
            (r.lasers == [] && r'.warnings == [] && r'.attack == Beam && |r'.lasers| == 1 &&
             r'.lasers[0].startTime == now && !r'.lasers[0].hitPlayer && !r'.lasers[0].done)
    ensures r.attack == Bombs ==> r'.lasers == r.lasers
    ensures r.enemyBullets <= r'.enemyBullets && |r'.enemyBullets| <= |r.enemyBullets| + 1
    ensures forall i :: |r.enemyBullets| <= i < |r'.enemyBullets| ==> r'.enemyBullets[i].damage > 0
    ensures r'.enemies == r.enemies || (|r.enemies| > 0 && r'.enemies == r.enemies[0 := r.enemies[0].(lastFire := now)])
    ensures r' == r.(enemies := r'.enemies, enemyBullets := r'.enemyBullets, lasers := r'.lasers,
                     warnings := r'.warnings, attack := r'.attack, bossTimer := r'.bossTimer)
  {
    if r.bossActive && |r.enemies| > 0 then Barrage(Rotate(r, now), now, aim) else r
  }

  /** When the boss fires. With the boss active and an enemy on the list, the
      lead enemy shoots exactly when the pattern it ends the rotation in is
      due: an aimed bullet of damage 10 more than 200 ms after its last
      shot, or a bomb more than a second after it, and it then remembers the
      time. A beam is fired exactly when the pattern is the beam and no
      warning and no beam are left. */
  lemma BossFires(r: Run, now: int, aim: Aim)
    requires r.bossActive && |r.enemies| > 0
    ensures var r' := Assault(r, now, aim);
            var lead := r.enemies[0];
            var bullets := r'.attack == Bullets && now - lead.lastFire > BOSS_BULLET_RATE;
            var bombs := r'.attack == Bombs && now - lead.lastFire > BOSS_BOMB_RATE;
            (|r'.enemyBullets| == |r.enemyBullets| + 1 <==> bullets || bombs) &&
            (bullets ==> r'.enemyBullets[|r.enemyBullets|].damage == BOSS_BULLET_DAMAGE &&
                         !r'.enemyBullets[|r.enemyBullets|].isBomb &&
                         r'.enemyBullets[|r.enemyBullets|].x == lead.x &&
                         r'.enemyBullets[|r.enemyBullets|].y == lead.y) &&
            (bombs ==> r'.enemyBullets[|r.enemyBullets|] == BossBomb(lead.x, lead.y)) &&
            (bullets || bombs <==> r'.enemies[0].lastFire == now && r'.enemies[0] != lead)
    ensures var r' := Assault(r, now, aim);
            |r'.lasers| > |r.lasers| <==> r'.attack == Beam && r'.warnings == [] && r.lasers == []
  {
  }

  /** At most one beam at a time. */
  lemma SingleBeam(r: Run, now: int, aim: Aim)
    requires |r.lasers| <= 1
    ensures |Assault(r, now, aim).lasers| <= 1
  {
  }
}
