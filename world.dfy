/** One tick of run_game as a function of the state before it, the player's
    controls, the clock, the random stream and the aiming rule; and the
    invariant every reachable state keeps. */
module World {
  import opened Settings
  import opened Entities
  import opened Census
  import opened Pilots
  import opened Combat
  import opened Runs
  import opened Spawner
  import opened BossFight
  import opened Cleanup

  /** What the player does during a tick: the shop buttons pressed (if the
      shop was opened), the movement and shield keys, the fire button, and
      the velocity of a shot fired along the cannon. */
  datatype Controls = Controls(picks: seq<Upgrade>, left: bool, right: bool, space: bool,
                               trigger: bool, shot: Point)

  /** The result of a tick: the new state and whether the level goes on. */
  datatype Step = Step(run: Run, outcome: Outcome)

  /** The least time between two shots: rapid fire halves the standard
      200 ms. */
  function FireRate(p: Pilot): (ms: int)
    ensures !Owns(p, RapidFire) ==> ms == STANDARD_FIRE_RATE
    ensures Owns(p, RapidFire) ==> 2 * ms == STANDARD_FIRE_RATE
  {
    if Owns(p, RapidFire) then RAPID_FIRE_RATE else STANDARD_FIRE_RATE
  }

  /** The shot the player fires: a bomb with the bomb gun, else a standard
      bullet, from the tank's centre. */
  function PlayerShot(p: Pilot, shot: Point): Bullet {
    var bomb := Owns(p, BombGun);
    Bullet(p.x as real, PLAYER_Y as real, shot.x, shot.y,
           if bomb then BOMB_BULLET_DAMAGE else PLAYER_BULLET_DAMAGE, bomb, Straight)
  }

  /** Player firing: with the button held, one shot once more than the fire
      rate has passed since the last. */
  function Trigger(r: Run, pressed: bool, shot: Point, now: int): (r': Run)
    ensures r.bullets <= r'.bullets && |r'.bullets| <= |r.bullets| + 1
    ensures |r'.bullets| == |r.bullets| + 1 <==> pressed && now - r.lastFire > FireRate(r.pilot)
    ensures |r'.bullets| == |r.bullets| + 1 ==>
              r'.bullets[|r.bullets|] == PlayerShot(r.pilot, shot) && r'.lastFire == now
    ensures r' == r.(bullets := r'.bullets, lastFire := r'.lastFire)
    ensures |r'.bullets| == |r.bullets| ==> r' == r
  {
    if pressed && now - r.lastFire > FireRate(r.pilot) then
      r.(bullets := r.bullets + [PlayerShot(r.pilot, shot)], lastFire := now)
    else r
  }

  /** Rate limiting of the player's gun: after a shot at time `now`, holding
      the button fires nothing more until more than the fire rate has
      passed. */
  lemma PlayerCooldown(r: Run, shot: Point, now: int, later: int, shot': Point)
    requires |Trigger(r, true, shot, now).bullets| == |r.bullets| + 1
    requires later - now <= FireRate(r.pilot)
    ensures Trigger(Trigger(r, true, shot, now), true, shot', later) == Trigger(r, true, shot, now)
  {
  }

  /** What the weapon does to the enemy it hits first (a medic aside): with
      the bomb gun the shot is a bomb of damage 50 that leaves only the
      survivors of its blast; without it, a bullet of damage 10 that
      damages that one enemy alone. */
  lemma ShotWeapon(p: Pilot, shot: Point, t: Tally, now: int, rng: nat -> Unit)
    requires var j := FirstOverlap(PlayerShot(p, shot), t.enemies);
             j < |t.enemies| && t.enemies[j].kind != Medic
    ensures var b := PlayerShot(p, shot);
            Owns(p, BombGun) ==> b.isBomb && b.damage == BOMB_BULLET_DAMAGE &&
                                 Strike1(t, b, now, rng).Hit? &&
                                 Strike1(t, b, now, rng).after.enemies == Survivors(b, t.enemies)
    ensures var b := PlayerShot(p, shot);
            !Owns(p, BombGun) ==> !b.isBomb && b.damage == PLAYER_BULLET_DAMAGE &&
                                  Strike1(t, b, now, rng) ==
                                    Hit(Direct(t, FirstOverlap(b, t.enemies), PLAYER_BULLET_DAMAGE, now, rng))
  {
    var b := PlayerShot(p, shot);
    if Owns(p, BombGun) {
      BombReach(t, b, now, rng);
    }
  }

  /** The enemy loop: each enemy moves, then (unless it is the boss) may
      fire at the target. */
  function Patrol(es: seq<Enemy>, target: Point, now: int, aim: Aim): (r: (seq<Enemy>, seq<Bullet>))
    requires AllFit(es)
    ensures |r.0| == |es| && |r.1| <= |es|
    decreases |es|
  {
    if es == [] then ([], [])
    else
      var (moved, shots) := Patrol(es[..|es| - 1], target, now, aim);
      var (e, fired) := Fire(Move(es[|es| - 1]), target, now, aim);
      (moved + [e], shots + fired)
  }

  /** Each enemy after the loop is the enemy moved and, if it fired, with
      its fire time reset; it keeps its kind and stays fit; every shot does
      damage. */
  lemma {:induction false} PatrolMoves(es: seq<Enemy>, target: Point, now: int, aim: Aim)
    requires AllFit(es)
    ensures var r := Patrol(es, target, now, aim);
            forall i :: 0 <= i < |es| ==> r.0[i] == Fire(Move(es[i]), target, now, aim).0
    ensures var r := Patrol(es, target, now, aim);
            forall i :: 0 <= i < |es| ==> r.0[i].kind == es[i].kind && Fit(r.0[i])
    ensures var r := Patrol(es, target, now, aim);
            forall i :: 0 <= i < |r.1| ==> r.1[i].damage > 0
    decreases |es|
  {
    if es != [] {
      var init := es[..|es| - 1];
      PatrolMoves(init, target, now, aim);
      assert es == init + [es[|es| - 1]];
      PatrolLast(init, es[|es| - 1], target, now, aim);
    }
  }

  /** One more round of the enemy loop, for the enemy at the back. */
  lemma PatrolLast(es: seq<Enemy>, e: Enemy, target: Point, now: int, aim: Aim)
    requires AllFit(es) && Fit(e)
    ensures AllFit(es + [e])
    ensures Patrol(es + [e], target, now, aim) ==
              (Patrol(es, target, now, aim).0 + [Fire(Move(e), target, now, aim).0],
               Patrol(es, target, now, aim).1 + Fire(Move(e), target, now, aim).1)
  {
    assert (es + [e])[..|es|] == es;
  }

  /** Every bullet flies one step; none is added, dropped or reordered. */
  function FlyAll(bs: seq<Bullet>): (r: seq<Bullet>)
    ensures |r| == |bs| && forall i :: 0 <= i < |bs| ==> r[i] == Fly(bs[i])
    ensures forall i :: 0 <= i < |bs| ==> r[i].damage == bs[i].damage
  {
    seq(|bs|, i requires 0 <= i < |bs| => Fly(bs[i]))
  }

  /** How many enemies of `es` fire in the enemy loop. */
  function Firing(es: seq<Enemy>, target: Point, now: int, aim: Aim): nat
    requires AllFit(es)
    decreases |es|
  {
    if es == [] then 0
    else
      Firing(es[..|es| - 1], target, now, aim) +
      |Fire(Move(es[|es| - 1]), target, now, aim).1|
  }

  /** The enemy loop's shots are those of the enemies that fire, in enemy
      order: the shot of enemy `i` follows the shots of the enemies before
      it. */
  lemma {:induction false} PatrolShots(es: seq<Enemy>, target: Point, now: int, aim: Aim)
    requires AllFit(es)
    ensures |Patrol(es, target, now, aim).1| == Firing(es, target, now, aim)
    ensures forall i :: 0 <= i < |es| && |Fire(Move(es[i]), target, now, aim).1| == 1 ==>
              Firing(es[..i], target, now, aim) < |Patrol(es, target, now, aim).1| &&
              Patrol(es, target, now, aim).1[Firing(es[..i], target, now, aim)] ==
                Fire(Move(es[i]), target, now, aim).1[0]
    decreases |es|
  {
    if es != [] {
      var init := es[..|es| - 1];
      PatrolShots(init, target, now, aim);
      assert es[..|es| - 1] == init;
      forall i | 0 <= i < |es| && |Fire(Move(es[i]), target, now, aim).1| == 1
        ensures Firing(es[..i], target, now, aim) < |Patrol(es, target, now, aim).1| &&
                Patrol(es, target, now, aim).1[Firing(es[..i], target, now, aim)] ==
                  Fire(Move(es[i]), target, now, aim).1[0]
      {
        if i < |init| {
          assert es[..i] == init[..i];
          assert init[i] == es[i];
        }
      }
    }
  }

  /** The steps of the update block, in order. */
  function BulletsFlown(r: Run): Run {
    r.(bullets := FlyAll(r.bullets))
  }

  function Marched(r: Run, now: int, aim: Aim): Run
    requires AllFit(r.enemies)
  {
    var (es, shots) := Patrol(r.enemies, Target(r), now, aim);
    r.(enemies := es, enemyBullets := r.enemyBullets + shots)
  }

  function ShotsFlown(r: Run): Run {
    r.(enemyBullets := FlyAll(r.enemyBullets))
  }

  function DropsSunk(r: Run): Run {
    r.(drops := seq(|r.drops|, i requires 0 <= i < |r.drops| => Sink(r.drops[i])))
  }

  function BeamsAged(r: Run, now: int): Run {
    r.(lasers := seq(|r.lasers|, i requires 0 <= i < |r.lasers| => LaserAged(r.lasers[i], now)),
       warnings := seq(|r.warnings|, i requires 0 <= i < |r.warnings| => WarningAged(r.warnings[i], now)))
  }

  /** The update block: bullets fly, enemies move and fire, every enemy
      bullet (including those just fired) flies, drops fall, and beams and
      warnings whose time is up are marked done. */
  function Advance(r: Run, now: int, aim: Aim): Run
    requires AllFit(r.enemies)
  {
    BeamsAged(DropsSunk(ShotsFlown(Marched(BulletsFlown(r), now, aim))), now)
  }

  /** The part of the state a player bullet can change. */
  function Ledger(r: Run): Tally {
    Tally(r.enemies, r.drops, r.score, r.pilot.coins, r.destroyed, r.cursor)
  }

  function Settle(r: Run, t: Tally, kept: seq<Bullet>): Run {
    r.(bullets := kept, enemies := t.enemies, drops := t.drops, score := t.score,
       pilot := r.pilot.(coins := t.coins), destroyed := t.destroyed, cursor := t.cursor)
  }

  /** The passes after the player-bullet pass, each on the state the one
      before left: enemy bullets, beams, drops. */
  function Dodged(r: Run): Run
    requires AllHarmful(r.enemyBullets)
  {
    var (p, eb) := Incoming(r.pilot, r.enemyBullets);
    r.(pilot := p, enemyBullets := eb)
  }

  function Burnt(r: Run): Run {
    var (p, ls) := Scorch(r.pilot, r.lasers);
    r.(pilot := p, lasers := ls)
  }

  function Gathered(r: Run): Run {
    var (p, ds) := Gather(r.pilot, r.drops);
    r.(pilot := p, drops := ds)
  }

  /** The four collision passes, in order. A crash in the first leaves the
      state as it was before the passes. */
  function Collide(r: Run, now: int, rng: nat -> Unit): Step
    requires AllHarmful(r.enemyBullets)
  {
    match Volley(Ledger(r), r.bullets, now, rng)
    case Raised => Step(r, Crashed)
    case Resolved(t, kept) => Step(Gathered(Burnt(Dodged(Settle(r, t, kept)))), Running)
  }

  /** What every tick needs of the state it starts from. */
  predicate WellFormed(r: Run) {
    IsLevel(r.level) && AllFit(r.enemies) && AllHarmful(r.enemyBullets)
  }

  /** The state at each of the tick's phases, in order. */
  function Shopped(r: Run, c: Controls): Run {
    r.(pilot := Drive(Shop(r.pilot, c.picks), c.left, c.right, c.space))
  }

  function Armed(r: Run, c: Controls, now: int, rng: nat -> Unit, aim: Aim): (r': Run)
    requires WellFormed(r)
    ensures WellFormed(r')
  {
    var r1 := Trigger(Shopped(r, c), c.trigger, c.shot, now);
    var r2 := Spawn(r1, now, rng);
    ArrivalsFit(r1.enemies, r2.enemies);
    var r3 := Summon(r2, now);
    ArrivalsFit(r2.enemies, r3.enemies);
    var r4 := Assault(r3, now, aim);
    AssaultFit(r3, r4, now);
    r4
  }

  /** Enemies appended to a fit list keep it fit if they are fit. */
  lemma ArrivalsFit(es: seq<Enemy>, es': seq<Enemy>)
    requires AllFit(es) && es <= es'
    requires forall i :: |es| <= i < |es'| ==> Fit(es'[i])
    ensures AllFit(es')
  {
  }

  /** The boss's turn keeps the enemies fit and its bullets harmful. */
  lemma AssaultFit(r: Run, r': Run, now: int)
    requires AllFit(r.enemies) && AllHarmful(r.enemyBullets)
    requires r'.enemies == r.enemies || (|r.enemies| > 0 && r'.enemies == r.enemies[0 := r.enemies[0].(lastFire := now)])
    requires r.enemyBullets <= r'.enemyBullets
    requires forall i :: |r.enemyBullets| <= i < |r'.enemyBullets| ==> r'.enemyBullets[i].damage > 0
    ensures AllFit(r'.enemies) && AllHarmful(r'.enemyBullets)
  {
  }

  function Moved(r: Run, c: Controls, now: int, rng: nat -> Unit, aim: Aim): (r': Run)
    requires WellFormed(r)
    ensures WellFormed(r')
  {
    var a := Armed(r, c, now, rng, aim);
    PatrolMoves(a.enemies, Target(a), now, aim);
    var r' := Advance(a, now, aim);
    assert forall b :: b in r'.enemyBullets ==> b.damage >= 0;
    r'
  }

  /** One iteration of run_game's loop. */
  function Tick(r: Run, c: Controls, now: int, rng: nat -> Unit, aim: Aim): Step
    requires WellFormed(r)
  {
    var step := Collide(Moved(r, c, now, rng, aim), now, rng);
    if step.outcome == Crashed then step
    else
      var r' := Tidy(step.run, now);
      Step(r', Judge(r'))
  }

  /** The invariant of a run: the player is sound; every regular enemy ever
      spawned is either destroyed or still on the list; the spawned counter
      and the regular enemies on screen exceed their bounds by at most the
      overshoot; there is at most one boss, none before it is summoned, and
      it is summoned only once the quota is reached; at most one beam. */
  predicate Inv(r: Run) {
    WellFormed(r) &&
    r.quota == QuotaFor(r.level) &&
    Sound(r.pilot) &&
    r.destroyed + RegularCount(r.enemies) == r.spawned &&
    r.spawned <= r.quota + Overshoot(r.level) &&
    RegularCount(r.enemies) <= MAX_ENEMIES_ON_SCREEN + Overshoot(r.level) &&
    CountOf(r.enemies, Boss) <= (if r.bossActive then 1 else 0) &&
    (r.bossActive ==> r.destroyed >= r.quota) &&
    |r.lasers| <= 1
  }

  lemma StartInv(level: int, attack: Attack, now: int)
    requires IsLevel(level)
    ensures Inv(Start(level, attack, now))
  {
  }

  lemma ArmedInv(r: Run, c: Controls, now: int, rng: nat -> Unit, aim: Aim)
    requires Inv(r)
    ensures Inv(Armed(r, c, now, rng, aim))
  {
    var r1 := Trigger(Shopped(r, c), c.trigger, c.shot, now);
    var r2 := Spawn(r1, now, rng);
    var r3 := Summon(r2, now);
    SpawnCensus(r1, now, rng);
    SpawnBounds(r1, now, rng);
    SummonCensus(r2, now);
    var r4 := Assault(r3, now, aim);
    if r4.enemies != r3.enemies {
      CensusReplace(r3.enemies, 0, r3.enemies[0].(lastFire := now));
    }
  }

  lemma MovedInv(r: Run, c: Controls, now: int, rng: nat -> Unit, aim: Aim)
    requires Inv(r)
    ensures Inv(Moved(r, c, now, rng, aim))
  {
    var a := Armed(r, c, now, rng, aim);
    ArmedInv(r, c, now, rng, aim);
    var (es, shots) := Patrol(a.enemies, Target(a), now, aim);
    PatrolMoves(a.enemies, Target(a), now, aim);
    CensusSameKinds(es, a.enemies);
  }

  lemma CollideInv(r: Run, now: int, rng: nat -> Unit)
    requires Inv(r)
    ensures Inv(Collide(r, now, rng).run)
  {
    var a := Volley(Ledger(r), r.bullets, now, rng);
    if a.Resolved? {
      VolleyConserves(Ledger(r), r.bullets, now, rng);
      var eb := Incoming(Settle(r, a.tally, a.bullets).pilot, r.enemyBullets).1;
      assert forall i :: 0 <= i < |eb| ==> eb[i] in r.enemyBullets;
    }
  }

  lemma TidyInv(r: Run, now: int)
    requires Inv(r)
    ensures Inv(Tidy(r, now))
  {
    RecycleCensus(r.enemies);
    RecycleFit(r.enemies);
    var eb := Tidy(r, now).enemyBullets;
    assert forall i :: 0 <= i < |eb| ==> eb[i] in r.enemyBullets;
  }

  /** Recycling keeps every enemy fit. */
  lemma {:induction false} RecycleFit(es: seq<Enemy>)
    requires AllFit(es)
    ensures AllFit(Recycle(es).0)
    decreases |es|
  {
    if es != [] {
      RecycleFit(es[..|es| - 1]);
    }
  }

  /** Every tick keeps the invariant (a crash leaves the state before the
      collisions, which keeps it too). */
  lemma TickInv(r: Run, c: Controls, now: int, rng: nat -> Unit, aim: Aim)
    requires Inv(r)
    ensures Inv(Tick(r, c, now, rng, aim).run)
  {
    var m := Moved(r, c, now, rng, aim);
    MovedInv(r, c, now, rng, aim);
    CollideInv(m, now, rng);
    var step := Collide(m, now, rng);
    if step.outcome != Crashed {
      TidyInv(step.run, now);
    }
  }

  /** A level is won only after the quota of kills and the boss, with the
      player alive; it is lost exactly when health is gone. */
  lemma TickOutcome(r: Run, c: Controls, now: int, rng: nat -> Unit, aim: Aim)
    requires Inv(r)
    ensures var s := Tick(r, c, now, rng, aim);
            s.outcome == Won ==> s.run.bossActive && s.run.destroyed >= s.run.quota &&
                                 s.run.enemies == [] && s.run.pilot.health > 0
    ensures var s := Tick(r, c, now, rng, aim);
            s.outcome != Crashed ==> (s.outcome == Lost <==> s.run.pilot.health <= 0)
  {
    TickInv(r, c, now, rng, aim);
  }
}
