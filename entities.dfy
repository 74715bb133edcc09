/** The moving things of one run other than the player: bullets (Bullet and
    BombBullet), enemies, drops, and the boss's laser beams and their warnings.
    Each is a value; one tick of its `update` is a function from the old value
    to the new one. */
module Entities {
  import opened Settings

  /** A value of random.random(): a real in [0, 1). */
  type Unit = r: real | 0.0 <= r < 1.0 witness 0.0

  /** random.uniform(a, b), which Python computes as a + (b - a) * random(). */
  function Uniform(a: real, b: real, u: Unit): (r: real)
    requires a <= b
    ensures a <= r <= b
  {
    var spread := Scale(b - a, u);
    a + spread
  }

  /** A non-negative amount scaled by a factor in [0, 1) stays within [0, amount]. */
  function Scale(c: real, u: Unit): (r: real)
    requires c >= 0.0
    ensures 0.0 <= r <= c
  {
    ScaledDown(c, u);
    c * u
  }

  lemma ScaledDown(c: real, u: real)
    requires c >= 0.0 && 0.0 <= u <= 1.0
    ensures 0.0 <= c * u <= c
  {
    if c > 0.0 {
      assert c * u <= c * 1.0;
    }
  }

  datatype Point = Point(x: real, y: real)

  /** The velocity of a shot of the given speed from one point towards
      another: atan2, cos and sin in the source. */
  type Aim = (Point, Point, real) -> Point

  // ---------------------------------------------------------------- falling

  /** One tick of something that falls at `vy` until it rests on the ground:
      the new height and whether it is grounded. */
  function FallStep(y: real, vy: real, grounded: bool): (real, bool) {
    if grounded then (y, true)
    else if y + vy >= GROUND_Y then (GROUND_Y, true)
    else (y + vy, false)
  }

  /** `k` ticks of FallStep. */
  function FallSteps(y: real, vy: real, grounded: bool, k: nat): (real, bool) {
    if k == 0 then (y, grounded)
    else
      var (y', g') := FallSteps(y, vy, grounded, k - 1);
      FallStep(y', vy, g')
  }

  /** Something that starts in the air above the ground and falls at a
      positive speed is, after `k` ticks, at its start height plus `k` times
      its speed, or resting on the ground once that would reach it. */
  lemma {:induction false} FallingLands(y: real, vy: real, k: nat)
    requires y < GROUND_Y && vy > 0.0
    ensures FallSteps(y, vy, false, k).1 <==> y + k as real * vy >= GROUND_Y
    ensures FallSteps(y, vy, false, k).0 ==
              if y + k as real * vy >= GROUND_Y then GROUND_Y else y + k as real * vy
  {
    if k > 0 {
      FallingLands(y, vy, k - 1);
      assert y + k as real * vy == (y + (k - 1) as real * vy) + vy;
      assert y + (k - 1) as real * vy <= y + k as real * vy;
    }
  }

  // ---------------------------------------------------------------- bullets

  /** How a projectile moves: a straight Bullet, or a boss BombBullet that
      falls and then rests on the ground. */
  datatype Motion = Straight | Falling(grounded: bool)

  /** A projectile. `isBomb` is the source's is_bomb flag: a player shot from
      the bomb gun is a straight bomb, a boss bomb a falling one. */
  datatype Bullet = Bullet(x: real, y: real, vx: real, vy: real, damage: int, isBomb: bool, motion: Motion)

  /** A boss BombBullet at the given position. */
  function BossBomb(x: real, y: real): (b: Bullet)
    ensures b.isBomb && b.motion == Falling(false) && b.damage == BOSS_BOMB_DAMAGE
  {
    Bullet(x, y, 0.0, DROP_FALL_SPEED, BOSS_BOMB_DAMAGE, true, Falling(false))
  }

  /** Bullet.update and BombBullet.update. */
  function Fly(b: Bullet): (r: Bullet)
    ensures r.damage == b.damage && r.isBomb == b.isBomb && r.motion.Straight? == b.motion.Straight?
  {
    match b.motion
    case Straight => b.(x := b.x + b.vx, y := b.y + b.vy)
    case Falling(grounded) =>
      if grounded then b
      else
        var (y', g') := FallStep(b.y, b.vy, false);
        if g' then b.(y := y', vx := 0.0, vy := 0.0, motion := Falling(true))
        else b.(y := y')
  }

  /** `k` ticks of Fly. */
  function Flown(b: Bullet, k: nat): Bullet {
    if k == 0 then b else Fly(Flown(b, k - 1))
  }

  /** A straight bullet is, after `k` ticks, `k` velocities away from where
      it started, with its velocity unchanged. */
  lemma {:induction false} StraightFlight(b: Bullet, k: nat)
    requires b.motion == Straight
    ensures Flown(b, k) == b.(x := b.x + k as real * b.vx, y := b.y + k as real * b.vy)
  {
    if k > 0 {
      StraightFlight(b, k - 1);
      assert b.x + k as real * b.vx == (b.x + (k - 1) as real * b.vx) + b.vx;
      assert b.y + k as real * b.vy == (b.y + (k - 1) as real * b.vy) + b.vy;
    }
  }

  /** A boss bomb released above the ground falls by its speed each tick and
      then rests on the ground, where it stops moving and stays. */
  lemma {:induction false} BombLanding(b: Bullet, k: nat)
    requires b.motion == Falling(false) && b.y < GROUND_Y && b.vy > 0.0
    ensures Flown(b, k).motion.Falling?
    ensures Flown(b, k).motion.grounded == FallSteps(b.y, b.vy, false, k).1
    ensures Flown(b, k).y == FallSteps(b.y, b.vy, false, k).0
    ensures Flown(b, k).x == b.x && Flown(b, k).damage == b.damage
    ensures Flown(b, k).motion.grounded ==> Flown(b, k).vx == 0.0 && Flown(b, k).vy == 0.0
    ensures !Flown(b, k).motion.grounded ==> Flown(b, k).vx == b.vx && Flown(b, k).vy == b.vy
  {
    if k > 0 {
      BombLanding(b, k - 1);
    }
  }

  // ---------------------------------------------------------------- drops

  datatype DropKind = Coin | ShieldPack

  /** A dropped item; `spawnTime` is the clock value when it was created. */
  datatype Drop = Drop(kind: DropKind, x: real, y: real, spawnTime: int, grounded: bool)

  /** Drop.update: fall at DROP_FALL_SPEED until resting on the ground. */
  function Sink(d: Drop): (r: Drop)
    ensures r.kind == d.kind && r.x == d.x && r.spawnTime == d.spawnTime
    ensures d.grounded ==> r == d
    ensures d.y <= GROUND_Y ==> r.y <= GROUND_Y
    ensures r.grounded <==> d.grounded || d.y + DROP_FALL_SPEED >= GROUND_Y
  {
    var (y', g') := FallStep(d.y, DROP_FALL_SPEED, d.grounded);
    d.(y := y', grounded := g')
  }

  /** `k` ticks of Sink. */
  function Sunk(d: Drop, k: nat): Drop {
    if k == 0 then d else Sink(Sunk(d, k - 1))
  }

  /** A drop falls exactly as a boss bomb does: by its speed each tick, then
      it rests on the ground. */
  lemma {:induction false} DropLanding(d: Drop, k: nat)
    requires !d.grounded && d.y < GROUND_Y
    ensures (Sunk(d, k).y, Sunk(d, k).grounded) == FallSteps(d.y, DROP_FALL_SPEED, false, k)
    ensures Sunk(d, k).grounded <==> d.y + k as real * DROP_FALL_SPEED >= GROUND_Y
  {
    if k > 0 {
      DropLanding(d, k - 1);
    }
    FallingLands(d.y, DROP_FALL_SPEED, k);
  }

  // ---------------------------------------------------------------- enemies

  /** An enemy. `width` and `height` are whole numbers (the source halves
      them with //); `rateMod` is fire_rate_mod; `lastFire` is a clock value. */
  datatype Enemy = Enemy(kind: Kind, x: real, y: real, vx: real, vy: real,
                         width: int, height: int, health: int,
                         canFire: bool, rateMod: int, lastFire: int)

  /** What holds of every enemy the game creates: a positive fire-rate
      modifier (fire divides by it) and a non-negative width. */
  predicate Fit(e: Enemy) {
    e.rateMod > 0 && e.width >= 0
  }

  /** Whether the Enemy constructor draws a random vertical speed. */
  predicate DrawsVerticalSpeed(k: Kind) {
    k != Boss && k != Tank
  }

  /** Enemy.__init__: an enemy entering at x == 0 moves right, any other one
      left; a boss moves diagonally, a tank horizontally, and the rest with a
      random vertical speed in [-1, 1] drawn from `roll`. */
  function NewEnemy(kind: Kind, x: real, y: real, speed: real, health: int, width: int, height: int,
                    canFire: bool, rateMod: int, now: int, roll: Unit): (e: Enemy)
    ensures e.kind == kind && e.x == x && e.y == y && e.health == health && e.lastFire == now
    ensures e.vx == if x == 0.0 then speed else -speed
    ensures kind == Tank ==> e.vy == 0.0
    ensures kind == Boss ==> e.vy == speed
    ensures DrawsVerticalSpeed(kind) ==> -1.0 <= e.vy <= 1.0
  {
    var vy := if kind == Boss then speed else if kind == Tank then 0.0 else Uniform(-1.0, 1.0, roll);
    Enemy(kind, x, y, if x == 0.0 then speed else -speed, vy, width, height, health, canFire, rateMod, now)
  }

  /** Half of a whole-number extent, as the source's `// 2`. */
  function Half(n: int): real {
    (n / 2) as real
  }

  /** One axis of a bouncing move: the position advances by the velocity,
      and the velocity flips if the new position reaches or passes either
      wall. */
  function Bounce(p: real, v: real, lo: real, hi: real): (real, real) {
    var p' := p + v;
    (p', if p' <= lo || p' >= hi then -v else v)
  }

  function Abs(v: real): real { if v < 0.0 then -v else v }

  /** Where a bouncing coordinate can be: between the walls, or less than one
      step beyond a wall while heading back in. */
  predicate Within(p: real, v: real, lo: real, hi: real) {
    (lo <= p <= hi) || (lo - Abs(v) <= p < lo && v > 0.0) || (hi < p <= hi + Abs(v) && v < 0.0)
  }

  /** A coordinate that starts within its walls stays within them, never
      more than one step beyond a wall, as long as a step is shorter than
      the distance between the walls; the speed never changes. */
  lemma BounceWithin(p: real, v: real, lo: real, hi: real)
    requires lo < hi && Abs(v) < hi - lo && Within(p, v, lo, hi)
    ensures Within(Bounce(p, v, lo, hi).0, Bounce(p, v, lo, hi).1, lo, hi)
    ensures Abs(Bounce(p, v, lo, hi).1) == Abs(v)
  {
  }

  /** The walls of each kind's bounce: the side walls, at half a width from
      the screen edges; the boss's top and middle of the screen, at half a
      height; and the air band between 10% and 50% of the screen height. */
  function SideWalls(e: Enemy): (real, real) {
    (Half(e.width), SCREEN_WIDTH as real - Half(e.width))
  }

  function BossBand(e: Enemy): (real, real) {
    (Half(e.height), 0.5 * SCREEN_HEIGHT as real - Half(e.height))
  }

  const AIR_BAND: (real, real) := (0.1 * SCREEN_HEIGHT as real, 0.5 * SCREEN_HEIGHT as real)

  /** Enemy.update. Tanks move horizontally and bounce off the side walls;
      the boss moves on both axes and bounces off the side walls and off the
      top and middle of the screen; air enemies fly straight across and
      bounce vertically within the air band. */
  function Move(e: Enemy): (r: Enemy)
    ensures r.kind == e.kind && r.width == e.width && r.height == e.height && r.health == e.health
    ensures r.canFire == e.canFire && r.rateMod == e.rateMod && r.lastFire == e.lastFire
    ensures e.kind == Tank ==>
              (r.x, r.vx) == Bounce(e.x, e.vx, SideWalls(e).0, SideWalls(e).1) && r.y == e.y && r.vy == e.vy
    ensures e.kind == Boss ==>
              (r.x, r.vx) == Bounce(e.x, e.vx, SideWalls(e).0, SideWalls(e).1) &&
              (r.y, r.vy) == Bounce(e.y, e.vy, BossBand(e).0, BossBand(e).1)
    ensures e.kind != Tank && e.kind != Boss ==>
              r.x == e.x + e.vx && r.vx == e.vx && (r.y, r.vy) == Bounce(e.y, e.vy, AIR_BAND.0, AIR_BAND.1)
  {
    match e.kind
    case Tank =>
      var (x', vx') := Bounce(e.x, e.vx, SideWalls(e).0, SideWalls(e).1);
      e.(x := x', vx := vx')
    case Boss =>
      var (x', vx') := Bounce(e.x, e.vx, SideWalls(e).0, SideWalls(e).1);
      var (y', vy') := Bounce(e.y, e.vy, BossBand(e).0, BossBand(e).1);
      e.(x := x', vx := vx', y := y', vy := vy')
    case _ =>
      var (y', vy') := Bounce(e.y, e.vy, AIR_BAND.0, AIR_BAND.1);
      e.(x := e.x + e.vx, y := y', vy := vy')
  }

  /** An air enemy that enters the air band with a vertical speed of at most
      one stays in it, never more than one step outside, with its speed. */
  lemma AirBand(e: Enemy)
    requires e.kind != Tank && e.kind != Boss
    requires Abs(e.vy) <= 1.0 && Within(e.y, e.vy, AIR_BAND.0, AIR_BAND.1)
    ensures Within(Move(e).y, Move(e).vy, AIR_BAND.0, AIR_BAND.1) && Abs(Move(e).vy) == Abs(e.vy)
  {
    BounceWithin(e.y, e.vy, AIR_BAND.0, AIR_BAND.1);
  }

  /** A tank spawned at a screen edge never leaves it: it starts outside the
      side walls, so its first step already counts as reaching a wall and
      flips it back, and two moves bring it back exactly where it was. */
  lemma TankStuckAtEdge(e: Enemy)
    requires e.kind == Tank && e.width >= 4
    requires (e.x == 0.0 && 0.0 < e.vx <= 2.0) || (e.x == SCREEN_WIDTH as real && -2.0 <= e.vx < 0.0)
    ensures Move(Move(e)) == e
  {
  }

  /** The fire interval of Enemy.fire before the level modifier is applied. */
  function BaseFireRate(k: Kind): int {
    match k
    case Jet => 1500
    case Tank => 3000
    case Boss => 1000
    case _ => 2000
  }

  /** Enemy.fire's interval: the base rate divided by fire_rate_mod. */
  function FireInterval(e: Enemy): real
    requires e.rateMod > 0
  {
    BaseFireRate(e.kind) as real / e.rateMod as real
  }

  /** Enemy.fire: a boss never fires here (its attacks are the boss state
      machine's); any other enemy that can fire shoots one bullet at the
      target once more than its interval has passed since its last shot, and
      remembers the time. */
  function Fire(e: Enemy, target: Point, now: int, aim: Aim): (r: (Enemy, seq<Bullet>))
    requires e.rateMod > 0
    ensures |r.1| <= 1
    ensures |r.1| == 1 <==> e.kind != Boss && e.canFire && (now - e.lastFire) as real > FireInterval(e)
    ensures |r.1| == 0 ==> r.0 == e
    ensures |r.1| == 1 ==> r.0 == e.(lastFire := now)
    ensures |r.1| == 1 ==> r.1[0].x == e.x && r.1[0].y == e.y && !r.1[0].isBomb && r.1[0].motion == Straight
    ensures |r.1| == 1 ==> r.1[0].damage == if e.kind == Tank then TANK_BULLET_DAMAGE else ENEMY_BULLET_DAMAGE
  {
    if e.kind == Boss then (e, [])
    else if e.canFire && (now - e.lastFire) as real > FireInterval(e) then
      var v := aim(Point(e.x, e.y), target, ENEMY_BULLET_SPEED);
      var damage := if e.kind == Tank then TANK_BULLET_DAMAGE else ENEMY_BULLET_DAMAGE;
      (e.(lastFire := now), [Bullet(e.x, e.y, v.x, v.y, damage, false, Straight)])
    else (e, [])
  }

  /** Rate limiting: after a shot at time `now`, the enemy does not fire again
      until more than its interval has passed. */
  lemma FireCooldown(e: Enemy, target: Point, now: int, later: int, aim: Aim)
    requires e.rateMod > 0 && |Fire(e, target, now, aim).1| == 1
    requires (later - now) as real <= FireInterval(e)
    ensures Fire(Fire(e, target, now, aim).0, target, later, aim).1 == []
  {
  }

  // ---------------------------------------------------------------- lasers

  /** A boss laser beam; `hitPlayer` records that it has already damaged the
      player. */
  datatype Laser = Laser(start: Point, end: Point, startTime: int, duration: int, done: bool, hitPlayer: bool)

  /** The warning line shown before a beam. */
  datatype Warning = Warning(start: Point, end: Point, startTime: int, duration: int, done: bool)

  /** The test both draw calls share: more than `duration` ms have passed
      since `startTime`. */
  predicate Expired(startTime: int, duration: int, now: int) {
    now - startTime > duration
  }

  /** The `done` bookkeeping of Laser.draw: set once the beam has expired,
      never cleared. */
  function LaserAged(l: Laser, now: int): (r: Laser)
    ensures r.done <==> l.done || Expired(l.startTime, l.duration, now)
    ensures r.(done := l.done) == l
  {
    l.(done := l.done || Expired(l.startTime, l.duration, now))
  }

  /** The same bookkeeping in LaserWarning.draw. */
  function WarningAged(w: Warning, now: int): (r: Warning)
    ensures r.done <==> w.done || Expired(w.startTime, w.duration, now)
    ensures r.(done := w.done) == w
  {
    w.(done := w.done || Expired(w.startTime, w.duration, now))
  }
}
