/** run_game's state as an object whose methods change it in place, one
    method per block of the loop body, each proved to end in the state the
    corresponding function of the World module describes. */
module Arcade {
  import opened Settings
  import opened Entities
  import opened Census
  import opened Pilots
  import opened Combat
  import opened Runs
  import opened Spawner
  import opened BossFight
  import opened Cleanup
  import opened World

  /** The sequence facts the list passes below step through. */
  lemma Split<T>(a: seq<T>, s: seq<T>, i: nat)
    requires i < |s|
    ensures s[i..][0] == s[i] && s[i..][1..] == s[i + 1..]
    ensures a + s[i..] == a + [s[i]] + s[i + 1..]
  {
    assert s[i..] == [s[i]] + s[i + 1..];
  }

  lemma Overwrite<T>(a: seq<T>, s: seq<T>, i: nat, y: T)
    requires i < |s|
    ensures (a + s[i..])[|a| := y] == (a + [y]) + s[i + 1..]
  {
    Split(a, s, i);
  }

  lemma Regroup<T>(a: seq<T>, x: T, b: seq<T>)
    ensures a + ([x] + b) == (a + [x]) + b
  {
  }

  class Game {
    const player: Player
    var level: int
    var quota: int
    var bullets: seq<Bullet>
    var enemies: seq<Enemy>
    var enemyBullets: seq<Bullet>
    var drops: seq<Drop>
    var lasers: seq<Laser>
    var warnings: seq<Warning>
    var score: int
    var spawned: int
    var destroyed: int
    var lastAir: int
    var lastGround: int
    var lastMedic: int
    var lastFire: int
    var bossActive: bool
    var bossTimer: int
    var attack: Attack
    var cursor: nat

    function State(): Run
      reads this, player
    {
      Run(level, quota, player.View(), bullets, enemies, enemyBullets, drops, lasers, warnings,
          score, spawned, destroyed, lastAir, lastGround, lastMedic, lastFire,
          bossActive, bossTimer, attack, cursor)
    }

    /** The part of the state a player bullet can change. */
    function Books(): Tally
      reads this, player
    {
      Tally(enemies, drops, score, player.coins, destroyed, cursor)
    }

    ghost predicate Valid()
      reads this, player
    {
      Inv(State())
    }

    /** The set-up at the top of run_game. */
    constructor (level: int, attack: Attack, now: int)
      requires IsLevel(level)
      ensures State() == Start(level, attack, now) && Valid()
    {
      player := new Player();
      this.level := level;
      quota := QuotaFor(level);
      bullets := [];
      enemies := [];
      enemyBullets := [];
      drops := [];
      lasers := [];
      warnings := [];
      score := 0;
      spawned := 0;
      destroyed := 0;
      lastAir := now;
      lastGround := now;
      lastMedic := now;
      lastFire := now;
      bossActive := false;
      bossTimer := now;
      this.attack := attack;
      cursor := 0;
      new;
      StartInv(level, attack, now);
    }

    /** One pass of run_game's loop. After a crash the level is over and
        the state is of no further interest. */
    method Frame(c: Controls, now: int, rng: nat -> Unit, aim: Aim) returns (outcome: Outcome)
      requires Valid()
      modifies this, player
      ensures outcome == World.Tick(old(State()), c, now, rng, aim).outcome
      ensures outcome != Crashed ==> State() == World.Tick(old(State()), c, now, rng, aim).run && Valid()
    {
      ghost var r0 := State();
      Arm(c, now, rng, aim);
      AdvanceAll(now, aim);
      ghost var r1 := State();
      assert r1 == Moved(r0, c, now, rng, aim);
      MovedInv(r0, c, now, rng, aim);
      var crashed := Collisions(now, rng);
      if crashed {
        outcome := Crashed;
        return;
      }
      CollideInv(r1, now, rng);
      CleanUp(now);
      outcome := Verdict();
      TickInv(r0, c, now, rng, aim);
    }

    /** The loop body up to the update block: the shop, the player's
        update, firing, spawning and the boss. */
    method Arm(c: Controls, now: int, rng: nat -> Unit, aim: Aim)
      requires WellFormed(State()) && player.Valid()
      modifies this`bullets, this`lastFire, this`enemies, this`spawned, this`lastAir, this`lastGround,
               this`lastMedic, this`cursor, this`bossActive, this`bossTimer, this`enemyBullets,
               this`lasers, this`warnings, this`attack, player
      ensures State() == Armed(old(State()), c, now, rng, aim)
    {
      Prime(c, now);
      Populate(now, rng);
      BossTurn(now, aim);
    }

    /** The shop, the player's update and firing. */
    method Prime(c: Controls, now: int)
      requires player.Valid()
      modifies this`bullets, this`lastFire, player
      ensures State() == Trigger(Shopped(old(State()), c), c.trigger, c.shot, now)
    {
      VisitShop(c.picks);
      player.Update(c.left, c.right, c.space);
      PullTrigger(c.trigger, c.shot, now);
    }

    /** Spawning and the boss's arrival. */
    method Populate(now: int, rng: nat -> Unit)
      requires IsLevel(level)
      modifies this`enemies, this`spawned, this`lastAir, this`lastGround, this`lastMedic, this`cursor,
               this`bossActive, this`bossTimer
      ensures State() == Summon(Spawn(old(State()), now, rng), now)
    {
      SpawnEnemies(now, rng);
      SummonBoss(now);
    }

    /** The four collision passes. */
    method Collisions(now: int, rng: nat -> Unit) returns (crashed: bool)
      requires AllHarmful(enemyBullets)
      modifies this`bullets, this`enemies, this`drops, this`score, this`destroyed, this`cursor,
               this`enemyBullets, this`lasers, player
      ensures crashed <==> Collide(old(State()), now, rng).outcome == Crashed
      ensures !crashed ==> State() == Collide(old(State()), now, rng).run
    {
      crashed := ShootEnemies(now, rng);
      if crashed {
        return;
      }
      TakeHits();
      BurnPlayer();
      PickUp();
    }

    /** The player-bullet pass.
        The block itself is written out in `ScanBullets`, whose contract names only
        the fields it writes; this method lifts that contract to the whole
        state. The two are kept apart so that the block's proof does not also
        carry the rest of the state, which keeps it cheap for the verifier. */
    method ShootEnemies(now: int, rng: nat -> Unit) returns (crashed: bool)
      modifies this`bullets, this`enemies, this`drops, this`score, this`destroyed, this`cursor, player`coins
      ensures crashed <==> Volley(Ledger(old(State())), old(bullets), now, rng).Raised?
      ensures var a := Volley(Ledger(old(State())), old(bullets), now, rng);
              !crashed ==> State() == Settle(old(State()), a.tally, a.bullets)
    {
      crashed := ScanBullets(now, rng);
    }

    /** The enemy-bullet pass.
        The block itself is written out in `ScanShots`, whose contract names only
        the fields it writes; this method lifts that contract to the whole
        state. The two are kept apart so that the block's proof does not also
        carry the rest of the state, which keeps it cheap for the verifier. */
    method TakeHits()
      requires AllHarmful(enemyBullets)
      modifies this`enemyBullets, player
      ensures State() == Dodged(old(State()))
    {
      ScanShots();
    }

    /** The laser pass.
        The block itself is written out in `ScanBeams`, whose contract names only
        the fields it writes; this method lifts that contract to the whole
        state. The two are kept apart so that the block's proof does not also
        carry the rest of the state, which keeps it cheap for the verifier. */
    method BurnPlayer()
      modifies this`lasers, player
      ensures State() == Burnt(old(State()))
    {
      ScanBeams();
    }

    /** The pickup pass.
        The block itself is written out in `ScanDrops`, whose contract names only
        the fields it writes; this method lifts that contract to the whole
        state. The two are kept apart so that the block's proof does not also
        carry the rest of the state, which keeps it cheap for the verifier. */
    method PickUp()
      modifies this`drops, player
      ensures State() == Gathered(old(State()))
    {
      ScanDrops();
    }

    /** The shop: buy_upgrade for each button pressed. */
    method VisitShop(picks: seq<Upgrade>)
      requires player.Valid()
      modifies player
      ensures player.Valid() && player.View() == Shop(old(player.View()), picks)
    {
      ghost var p0 := player.View();
      var i := 0;
      while i < |picks|
        invariant 0 <= i <= |picks|
        invariant player.Valid() && player.View() == Shop(p0, picks[..i])
      {
        var message := player.BuyUpgrade(picks[i]);
        assert picks[..i + 1][..i] == picks[..i];
        i := i + 1;
      }
      assert picks[..|picks|] == picks;
    }

    /** Player firing. */
    method PullTrigger(pressed: bool, shot: Point, now: int)
      requires player.Valid()
      modifies this`bullets, this`lastFire
      ensures State() == Trigger(old(State()), pressed, shot, now)
    {
      var rate := if player.upgrades[RapidFire] then RAPID_FIRE_RATE else STANDARD_FIRE_RATE;
      if pressed && now - lastFire > rate {
        var bomb := player.upgrades[BombGun];
        bullets := bullets + [Bullet(player.x as real, PLAYER_Y as real, shot.x, shot.y,
                                     if bomb then BOMB_BULLET_DAMAGE else PLAYER_BULLET_DAMAGE, bomb, Straight)];
        lastFire := now;
      }
    }

    /** The spawning block. The ground check follows the air check under
        the same gate, evaluated once. */
    method SpawnEnemies(now: int, rng: nat -> Unit)
      requires IsLevel(level)
      modifies this`enemies, this`spawned, this`lastAir, this`lastGround, this`lastMedic, this`cursor
      ensures State() == Spawn(old(State()), now, rng)
    {
      var open := spawned < quota && !bossActive && RegularCount(enemies) < MAX_ENEMIES_ON_SCREEN;
      var medic := !bossActive && now - lastMedic > MEDIC_SPAWN_RATE;
      if open && now - lastAir > ENEMY_AIR_SPAWN_RATE {
        AddAirRaider(now, rng);
      }
      if open && level >= 2 && now - lastGround > ENEMY_GROUND_SPAWN_RATE {
        AddGroundRaider(now, rng);
      }
      if medic {
        AddMedevac(now, rng);
      }
    }

    method AddAirRaider(now: int, rng: nat -> Unit)
      requires IsLevel(level)
      modifies this`enemies, this`spawned, this`lastAir, this`cursor
      ensures State() == AirWave(old(State()), now, rng)
    {
      Enlist(AirRaider(level, now, rng, cursor), 4);
      lastAir, spawned := now, spawned + 1;
    }

    method AddGroundRaider(now: int, rng: nat -> Unit)
      requires IsLevel(level)
      modifies this`enemies, this`spawned, this`lastGround, this`cursor
      ensures State() == GroundWave(old(State()), now, rng)
    {
      Enlist(GroundRaider(level, now, rng(cursor)), 1);
      lastGround, spawned := now, spawned + 1;
    }

    method AddMedevac(now: int, rng: nat -> Unit)
      modifies this`enemies, this`lastMedic, this`cursor
      ensures State() == MedicWave(old(State()), now, rng)
    {
      Enlist(Medevac(now, rng, cursor), 3);
      lastMedic := now;
    }

    /** A new enemy joins the list; its construction used `draws` rolls. */
    method Enlist(e: Enemy, draws: nat)
      modifies this`enemies, this`cursor
      ensures enemies == old(enemies) + [e] && cursor == old(cursor) + draws
    {
      enemies, cursor := enemies + [e], cursor + draws;
    }

    /** Boss spawning. */
    method SummonBoss(now: int)
      requires IsLevel(level)
      modifies this`enemies, this`bossActive, this`bossTimer
      ensures State() == Summon(old(State()), now)
    {
      if destroyed >= quota && !bossActive {
        enemies := enemies + [NewEnemy(Boss, (SCREEN_WIDTH / 2) as real, (SCREEN_HEIGHT / 4) as real, 1.0,
                                       BossHealthFor(level), BOSS_SIZE, BOSS_SIZE, true, level, now, 0.0)];
        bossActive := true;
        bossTimer := now;
      }
    }

    /** The boss attack state machine.
        The block itself is written out in `BossMoves`, whose contract names only
        the fields it writes; this method lifts that contract to the whole
        state. The two are kept apart so that the block's proof does not also
        carry the rest of the state, which keeps it cheap for the verifier. */
    method BossTurn(now: int, aim: Aim)
      modifies this`enemies, this`enemyBullets, this`lasers, this`warnings, this`attack, this`bossTimer
      ensures State() == Assault(old(State()), now, aim)
    {
      BossMoves(now, aim);
    }

    method BossMoves(now: int, aim: Aim)
      modifies this`enemies, this`enemyBullets, this`lasers, this`warnings, this`attack, this`bossTimer
      ensures var r' := Assault(old(State()), now, aim);
              enemies == r'.enemies && enemyBullets == r'.enemyBullets && lasers == r'.lasers &&
              warnings == r'.warnings && attack == r'.attack && bossTimer == r'.bossTimer
    {
      if bossActive && |enemies| > 0 {
        var boss := enemies[0];
        var target := Point(player.x as real, PLAYER_Y as real);
        if now - bossTimer > BOSS_ATTACK_COOLDOWN {
          if attack == Bullets {
            attack := Bombs;
          } else if attack == Bombs {
            attack := Beam;
            warnings := warnings + [Warning(Point(boss.x, boss.y), target, now, LASER_WARNING_DURATION, false)];
          } else {
            attack := Bullets;
          }
          bossTimer := now;
        }
        if attack == Bullets && now - boss.lastFire > BOSS_BULLET_RATE {
          var v := aim(Point(boss.x, boss.y), target, ENEMY_BULLET_SPEED * 1.5);
          enemyBullets := enemyBullets + [Bullet(boss.x, boss.y, v.x, v.y, BOSS_BULLET_DAMAGE, false, Straight)];
          enemies := enemies[0 := boss.(lastFire := now)];
        } else if attack == Bombs && now - boss.lastFire > BOSS_BOMB_RATE {
          enemyBullets := enemyBullets + [BossBomb(boss.x, boss.y)];
          enemies := enemies[0 := boss.(lastFire := now)];
        } else if attack == Beam && warnings == [] && lasers == [] {
          lasers := lasers + [Laser(Point(boss.x, boss.y), target, now, LASER_DURATION, false, false)];
        }
      }
    }

    /** The update block. */
    method AdvanceAll(now: int, aim: Aim)
      requires AllFit(enemies)
      modifies this`bullets, this`enemies, this`enemyBullets, this`drops, this`lasers, this`warnings
      ensures State() == Advance(old(State()), now, aim)
    {
      FlyBullets();
      PatrolEnemies(now, aim);
      FlyEnemyBullets();
      SinkDrops();
      AgeBeams(now);
    }

    method FlyBullets()
      modifies this`bullets
      ensures State() == BulletsFlown(old(State()))
    {
      var i := 0;
      while i < |bullets|
        invariant 0 <= i <= |bullets| == |old(bullets)|
        invariant forall k :: 0 <= k < i ==> bullets[k] == Fly(old(bullets)[k])
        invariant forall k :: i <= k < |bullets| ==> bullets[k] == old(bullets)[k]
      {
        bullets := bullets[i := Fly(bullets[i])];
        i := i + 1;
      }
    }

    method FlyEnemyBullets()
      modifies this`enemyBullets
      ensures State() == ShotsFlown(old(State()))
    {
      var i := 0;
      while i < |enemyBullets|
        invariant 0 <= i <= |enemyBullets| == |old(enemyBullets)|
        invariant forall k :: 0 <= k < i ==> enemyBullets[k] == Fly(old(enemyBullets)[k])
        invariant forall k :: i <= k < |enemyBullets| ==> enemyBullets[k] == old(enemyBullets)[k]
      {
        enemyBullets := enemyBullets[i := Fly(enemyBullets[i])];
        i := i + 1;
      }
    }

    /** Each enemy moves and then may fire at the player; its shots join the
        enemy bullets. */
    method PatrolEnemies(now: int, aim: Aim)
      requires AllFit(enemies)
      modifies this`enemies, this`enemyBullets
      ensures State() == Marched(old(State()), now, aim)
    {
      MarchAll(Point(player.x as real, PLAYER_Y as real), now, aim);
    }

    /** The enemy loop itself. */
    method MarchAll(target: Point, now: int, aim: Aim)
      requires AllFit(enemies)
      modifies this`enemies, this`enemyBullets
      ensures enemies == Patrol(old(enemies), target, now, aim).0
      ensures enemyBullets == old(enemyBullets) + Patrol(old(enemies), target, now, aim).1
    {
      var es := enemies;
      var shots: seq<Bullet> := [];
      var i := 0;
      while i < |es|
        modifies {}
        invariant 0 <= i <= |es| == |enemies|
        invariant es[i..] == enemies[i..]
        invariant AllFit(enemies[..i])
        invariant es[..i] == Patrol(enemies[..i], target, now, aim).0
        invariant shots == Patrol(enemies[..i], target, now, aim).1
      {
        assert es[i] == es[i..][0] == enemies[i];
        assert enemies[..i + 1] == enemies[..i] + [es[i]];
        PatrolLast(enemies[..i], es[i], target, now, aim);
        var step := Fire(Move(es[i]), target, now, aim);
        ghost var before := es;
        es := es[i := step.0];
        assert es[i + 1..] == before[i + 1..] && es[..i + 1] == before[..i] + [step.0];
        shots := shots + step.1;
        i := i + 1;
      }
      assert es[..i] == es && enemies[..i] == enemies;
      enemies := es;
      enemyBullets := enemyBullets + shots;
    }

    method SinkDrops()
      modifies this`drops
      ensures State() == DropsSunk(old(State()))
    {
      var i := 0;
      while i < |drops|
        invariant 0 <= i <= |drops| == |old(drops)|
        invariant forall k :: 0 <= k < i ==> drops[k] == Sink(old(drops)[k])
        invariant forall k :: i <= k < |drops| ==> drops[k] == old(drops)[k]
      {
        drops := drops[i := Sink(drops[i])];
        i := i + 1;
      }
    }

    /** The done bookkeeping of the beam and warning draw calls. */
    method AgeBeams(now: int)
      modifies this`lasers, this`warnings
      ensures State() == BeamsAged(old(State()), now)
    {
      var i := 0;
      while i < |lasers|
        modifies this`lasers
        invariant 0 <= i <= |lasers| == |old(lasers)|
        invariant forall k :: 0 <= k < i ==> lasers[k] == LaserAged(old(lasers)[k], now)
        invariant forall k :: i <= k < |lasers| ==> lasers[k] == old(lasers)[k]
      {
        lasers := lasers[i := LaserAged(lasers[i], now)];
        i := i + 1;
      }
      i := 0;
      while i < |warnings|
        modifies this`warnings
        invariant 0 <= i <= |warnings| == |old(warnings)|
        invariant forall k :: 0 <= k < i ==> warnings[k] == WarningAged(old(warnings)[k], now)
        invariant forall k :: i <= k < |warnings| ==> warnings[k] == old(warnings)[k]
      {
        warnings := warnings[i := WarningAged(warnings[i], now)];
        i := i + 1;
      }
    }

    /** The inner search of the player-bullet pass: the first enemy from
        index `from` on that the bullet overlaps, or the list's length. */
    method FirstHit(b: Bullet, from: nat) returns (j: nat)
      requires from <= |enemies|
      ensures j == from + FirstOverlap(b, enemies[from..])
    {
      j := from;
      while j < |enemies| && !Overlaps(b, enemies[j])
        invariant from <= j <= |enemies|
        invariant FirstOverlap(b, enemies[from..]) == (j - from) + FirstOverlap(b, enemies[j..])
      {
        assert enemies[j..][1..] == enemies[j + 1..];
        j := j + 1;
      }
    }

    /** The bookkeeping of a kill: drop rolls, the destroyed counter, score
        and coins. */
    method Award(e: Enemy, now: int, rng: nat -> Unit)
      modifies this`drops, this`score, this`destroyed, this`cursor, player`coins
      ensures Books() == Reward(old(Books()), e, now, rng)
    {
      if rng(cursor) < COIN_DROP_CHANCE {
        drops := drops + [Drop(Coin, e.x, e.y, now, false)];
      }
      if rng(cursor + 1) < SHIELD_DROP_CHANCE {
        drops := drops + [Drop(ShieldPack, e.x, e.y, now, false)];
      }
      cursor := cursor + 2;
      if e.kind != Boss {
        destroyed := destroyed + 1;
      }
      score := score + ScoreFor(e.kind);
      player.coins := player.coins + CoinsFor(e.kind);
    }

    /** A bomb's area damage: every enemy within the radius is damaged, and
        those it kills (never a medic) are rewarded and removed. */
    method BlastAt(b: Bullet, now: int, rng: nat -> Unit)
      modifies this`enemies, this`drops, this`score, this`destroyed, this`cursor, player`coins
      ensures Books() == Blast(old(Books()), b, now, rng)
    {
      var snapshot := enemies;
      ghost var t0 := Books();
      var kept: seq<Enemy> := [];
      var k := 0;
      assert snapshot[0..] == snapshot;
      while k < |snapshot|
        invariant 0 <= k <= |snapshot|
        invariant enemies == kept + snapshot[k..]
        invariant Sweep(snapshot[k..], b, Books().(enemies := kept), now, rng) == Blast(t0, b, now, rng)
      {
        Split(kept, snapshot, k);
        kept := BlastOne(b, kept, snapshot[k], snapshot[k + 1..], now, rng);
        k := k + 1;
      }
    }

    /** The blast loop's step on the enemy `e`, which follows the survivors
        `kept` on the list. */
    method BlastOne(b: Bullet, kept: seq<Enemy>, e: Enemy, rest: seq<Enemy>, now: int, rng: nat -> Unit)
      returns (kept': seq<Enemy>)
      requires enemies == kept + [e] + rest
      modifies this`enemies, this`drops, this`score, this`destroyed, this`cursor, player`coins
      ensures enemies == kept' + rest
      ensures var t := old(Books()).(enemies := kept);
              Books().(enemies := kept') ==
                if Dies(b, e) then Reward(t, Scorched(b, e), now, rng)
                else t.(enemies := kept + [Scorched(b, e)])
    {
      kept' := kept + [e];
      if InBlast(b, e) {
        var hurt := e.(health := e.health - b.damage);
        kept' := kept + [hurt];
        enemies := kept' + rest;
        if hurt.health <= 0 && hurt.kind != Medic {
          kept' := kept;
          enemies := kept + rest;
          Award(hurt, now, rng);
        }
      }
    }

    /** A standard bullet's hit on the enemy at index j. */
    method HitOne(j: nat, damage: int, now: int, rng: nat -> Unit)
      requires j < |enemies|
      modifies this`enemies, this`drops, this`score, this`destroyed, this`cursor, player`coins
      ensures Books() == Direct(old(Books()), j, damage, now, rng)
    {
      var e := enemies[j].(health := enemies[j].health - damage);
      ghost var es := enemies;
      enemies := enemies[j := e];
      if e.health <= 0 {
        enemies := Without(enemies, j);
        assert enemies == Without(es, j);
        Award(e, now, rng);
      }
    }

    /** One bullet of the player-bullet pass against the enemy list. Reports
        whether the bullet hit (and so is to be removed), and whether the
        source would raise: a bullet that killed a medic and overlaps a
        later enemy too is removed a second time. */
    method StrikeWith(b: Bullet, now: int, rng: nat -> Unit) returns (hit: bool, crashed: bool)
      modifies this`enemies, this`drops, this`score, this`destroyed, this`cursor, player`coins
      ensures crashed <==> Strike1(old(Books()), b, now, rng).Fault?
      ensures !crashed && hit ==> Strike1(old(Books()), b, now, rng) == Hit(Books())
      ensures !crashed && !hit ==> Strike1(old(Books()), b, now, rng).Miss? && Books() == old(Books())
    {
      ghost var t := Books();
      var j := FirstHit(b, 0);
      assert enemies[0..] == enemies;
      if j == |enemies| {
        return false, false;
      }
      if enemies[j].kind == Medic {
        ghost var es := enemies;
        score := score + ScoreFor(Medic);
        player.coins := player.coins + CoinsFor(Medic);
        enemies := Without(enemies, j);
        assert enemies[j..] == es[j + 1..];
        var later := FirstHit(b, j);
        return true, later < |enemies|;
      }
      if b.isBomb {
        BlastAt(b, now, rng);
      } else {
        HitOne(j, b.damage, now, rng);
      }
      return true, false;
    }

    /** The player-bullet pass. Returns true where the source would raise. */
    method ScanBullets(now: int, rng: nat -> Unit) returns (crashed: bool)
      modifies this`bullets, this`enemies, this`drops, this`score, this`destroyed, this`cursor, player`coins
      ensures crashed <==> Volley(old(Books()), old(bullets), now, rng).Raised?
      ensures !crashed ==> Books() == Volley(old(Books()), old(bullets), now, rng).tally &&
                           bullets == Volley(old(Books()), old(bullets), now, rng).bullets
    {
      var snapshot := bullets;
      ghost var t0 := Books();
      var kept: seq<Bullet> := [];
      var i := 0;
      crashed := false;
      assert snapshot[0..] == snapshot;
      while i < |snapshot|
        invariant 0 <= i <= |snapshot|
        invariant !crashed
        invariant bullets == kept + snapshot[i..]
        invariant Keep(kept, Volley(Books(), snapshot[i..], now, rng)) == Volley(t0, snapshot, now, rng)
      {
        var b := snapshot[i];
        ghost var t := Books();
        Split(kept, snapshot, i);
        var hit;
        hit, crashed := StrikeWith(b, now, rng);
        if crashed {
          return;
        }
        if hit {
          bullets := kept + snapshot[i + 1..];
        } else {
          KeepKeep(kept, [b], Volley(t, snapshot[i + 1..], now, rng));
          kept := kept + [b];
        }
        i := i + 1;
      }
      assert snapshot[i..] == [];
    }

    lemma KeepKeep(a: seq<Bullet>, b: seq<Bullet>, x: Aftermath)
      ensures Keep(a, Keep(b, x)) == Keep(a + b, x)
    {
      if x.Resolved? {
        assert a + (b + x.bullets) == (a + b) + x.bullets;
      }
    }

    /** The enemy-bullet pass: a bullet inside the player's box is removed
        and hurts the shield or the player. */
    method ScanShots()
      requires AllHarmful(enemyBullets)
      modifies this`enemyBullets, player
      ensures player.View() == Incoming(old(player.View()), old(enemyBullets)).0
      ensures enemyBullets == Incoming(old(player.View()), old(enemyBullets)).1
    {
      var snapshot := enemyBullets;
      ghost var p0 := player.View();
      var kept: seq<Bullet> := [];
      var i := 0;
      assert snapshot[0..] == snapshot;
      while i < |snapshot|
        invariant 0 <= i <= |snapshot|
        invariant enemyBullets == kept + snapshot[i..]
        invariant AllHarmful(snapshot[i..])
        invariant Incoming(player.View(), snapshot[i..]).0 == Incoming(p0, snapshot).0
        invariant kept + Incoming(player.View(), snapshot[i..]).1 == Incoming(p0, snapshot).1
      {
        Split(kept, snapshot, i);
        assert AllHarmful(snapshot[i + 1..]);
        ghost var p := player.View();
        kept := TakeOne(kept, snapshot[i], snapshot[i + 1..]);
        if !Struck(p.x, snapshot[i].x, snapshot[i].y) {
          Regroup(kept[..|kept| - 1], snapshot[i], Incoming(p, snapshot[i + 1..]).1);
        }
        i := i + 1;
      }
    }

    /** The enemy-bullet loop's step on the bullet `b`, which follows the
        bullets `kept` that missed. */
    method TakeOne(kept: seq<Bullet>, b: Bullet, rest: seq<Bullet>) returns (kept': seq<Bullet>)
      requires enemyBullets == kept + [b] + rest && b.damage >= 0
      modifies this`enemyBullets, player
      ensures enemyBullets == kept' + rest
      ensures Struck(old(player.x), b.x, b.y) ==> kept' == kept && player.View() == Shot(old(player.View()), b.damage)
      ensures !Struck(old(player.x), b.x, b.y) ==> kept' == kept + [b] && player.View() == old(player.View())
    {
      if Struck(player.x, b.x, b.y) {
        player.Absorb(b.damage as real, b.damage);
        enemyBullets := kept + rest;
        kept' := kept;
      } else {
        kept' := kept + [b];
      }
    }

    /** The laser pass: a beam whose end point is in the player's box burns
        the shield or the player once, and is marked as having hit. */
    method ScanBeams()
      modifies this`lasers, player
      ensures player.View() == Scorch(old(player.View()), old(lasers)).0
      ensures lasers == Scorch(old(player.View()), old(lasers)).1
    {
      ghost var l0 := lasers;
      ghost var p0 := player.View();
      ghost var marked: seq<Laser> := [];
      var i := 0;
      assert l0[0..] == l0;
      while i < |lasers|
        invariant 0 <= i <= |lasers| == |l0|
        invariant |marked| == i && lasers == marked + l0[i..]
        invariant Scorch(player.View(), l0[i..]).0 == Scorch(p0, l0).0
        invariant marked + Scorch(player.View(), l0[i..]).1 == Scorch(p0, l0).1
      {
        Split(marked, l0, i);
        var l' := BurnOne(i);
        Overwrite(marked, l0, i, l');
        Regroup(marked, l', Scorch(player.View(), l0[i + 1..]).1);
        marked := marked + [l'];
        i := i + 1;
      }
      assert l0[i..] == [];
    }

    /** The laser loop's step on the beam at index i. */
    method BurnOne(i: nat) returns (l': Laser)
      requires i < |lasers|
      modifies this`lasers, player
      ensures var l := old(lasers)[i];
              var burns := !l.hitPlayer && Struck(old(player.x), l.end.x, l.end.y);
              l' == (if burns then l.(hitPlayer := true) else l) &&
              lasers == old(lasers)[i := l'] &&
              player.View() == (if burns then Burned(old(player.View())) else old(player.View()))
    {
      var l := lasers[i];
      l' := l;
      if !l.hitPlayer && Struck(player.x, l.end.x, l.end.y) {
        l' := l.(hitPlayer := true);
        lasers := lasers[i := l'];
        player.Absorb(BOSS_LASER_SHIELD_DRAIN, BOSS_LASER_DAMAGE);
      }
    }

    /** The pickup pass: a drop within reach is collected and removed. */
    method ScanDrops()
      modifies this`drops, player
      ensures player.View() == Gather(old(player.View()), old(drops)).0
      ensures drops == Gather(old(player.View()), old(drops)).1
    {
      var snapshot := drops;
      ghost var p0 := player.View();
      var kept: seq<Drop> := [];
      var i := 0;
      assert snapshot[0..] == snapshot;
      while i < |snapshot|
        invariant 0 <= i <= |snapshot|
        invariant drops == kept + snapshot[i..]
        invariant Gather(player.View(), snapshot[i..]).0 == Gather(p0, snapshot).0
        invariant kept + Gather(player.View(), snapshot[i..]).1 == Gather(p0, snapshot).1
      {
        var d := snapshot[i];
        ghost var p := player.View();
        Split(kept, snapshot, i);
        if InReach(player.x, d) {
          player.Pick(d.kind);
          drops := kept + snapshot[i + 1..];
        } else {
          ghost var rest := Gather(p, snapshot[i + 1..]).1;
          Regroup(kept, d, rest);
          kept := kept + [d];
        }
        i := i + 1;
      }
    }

    /** The cleanup block. */
    method CleanUp(now: int)
      modifies this`bullets, this`enemyBullets, this`lasers, this`warnings, this`drops, this`enemies, player`coins
      ensures State() == Tidy(old(State()), now)
    {
      Prune(now);
      Retire();
    }

    /** The list comprehensions. */
    method Prune(now: int)
      modifies this`bullets, this`enemyBullets, this`lasers, this`warnings, this`drops
      ensures State() == Pruned(old(State()), now)
    {
      PruneShots();
      PruneBeams();
      PruneDrops(now);
    }

    method PruneShots()
      modifies this`bullets, this`enemyBullets
      ensures State() == old(State()).(bullets := Filter(old(bullets), InBounds),
                                       enemyBullets := Filter(old(enemyBullets), InBounds))
    {
      bullets, enemyBullets := Filter(bullets, InBounds), Filter(enemyBullets, InBounds);
    }

    method PruneBeams()
      modifies this`lasers, this`warnings
      ensures State() == old(State()).(lasers := Filter(old(lasers), Shining),
                                       warnings := Filter(old(warnings), Showing))
    {
      lasers, warnings := Filter(lasers, Shining), Filter(warnings, Showing);
    }

    method PruneDrops(now: int)
      modifies this`drops
      ensures State() == old(State()).(drops := Filter(old(drops), Unexpired(now)))
    {
      drops := Filter(drops, Unexpired(now));
    }

    /** The recycling block with its pass-by reward.
        The block itself is written out in `RecycleEnemies`, whose contract names only
        the fields it writes; this method lifts that contract to the whole
        state. The two are kept apart so that the block's proof does not also
        carry the rest of the state, which keeps it cheap for the verifier. */
    method Retire()
      modifies this`enemies, player`coins
      ensures State() == Recycled(old(State()))
    {
      RecycleEnemies();
    }

    /** The recycling loop: regular enemies off screen wrap around, medics
        off screen are paid for and removed. */
    method RecycleEnemies()
      modifies this`enemies, player`coins
      ensures enemies == Recycle(old(enemies)).0
      ensures player.coins == old(player.coins) + MEDIC_PASS_BY_REWARD * Recycle(old(enemies)).1
    {
      var snapshot := enemies;
      var kept: seq<Enemy> := [];
      ghost var passed: nat := 0;
      var i := 0;
      while i < |snapshot|
        invariant 0 <= i <= |snapshot|
        invariant (kept, passed) == Recycle(snapshot[..i])
        invariant player.coins == old(player.coins) + MEDIC_PASS_BY_REWARD * passed
      {
        assert snapshot[..i + 1][..i] == snapshot[..i];
        var e := snapshot[i];
        if e.x < -(e.width as real) || e.x > (SCREEN_WIDTH + e.width) as real {
          if e.kind == Medic {
            player.coins := player.coins + MEDIC_PASS_BY_REWARD;
            passed := passed + 1;
          } else if e.kind != Boss {
            if e.x < -(e.width as real) {
              e := e.(x := (SCREEN_WIDTH + e.width) as real);
            } else if e.x > (SCREEN_WIDTH + e.width) as real {
              e := e.(x := -(e.width as real));
            }
            kept := kept + [e];
          } else {
            kept := kept + [e];
          }
        } else {
          kept := kept + [e];
        }
        i := i + 1;
      }
      assert snapshot[..i] == snapshot;
      enemies := kept;
    }

    /** The terminal checks. */
    method Verdict() returns (outcome: Outcome)
      ensures outcome == Judge(State())
    {
      if player.health <= 0 {
        outcome := Lost;
      } else if bossActive && enemies == [] {
        outcome := Won;
      } else {
        outcome := Running;
      }
    }
  }
}
