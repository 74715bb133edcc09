/** Collision resolution of one tick, in the order run_game applies it:
    player bullets against enemies, enemy bullets against the player, laser
    beams against the player, and the player against drops. Each pass is a
    function over the list it walks, front to back. */
module Combat {
  import opened Settings
  import opened Entities
  import opened Census
  import opened Pilots

  // ============================================= player bullets vs enemies

  /** The bullet's centre lies strictly inside the enemy's box. */
  predicate Overlaps(b: Bullet, e: Enemy) {
    b.x > e.x - Half(e.width) && b.x < e.x + Half(e.width) &&
    b.y > e.y - Half(e.height) && b.y < e.y + Half(e.height)
  }

  /** The index of the first enemy, in list order, that the bullet overlaps;
      |es| when there is none. */
  function FirstOverlap(b: Bullet, es: seq<Enemy>): (j: nat)
    ensures j <= |es|
    ensures j < |es| ==> Overlaps(b, es[j])
    ensures forall k :: 0 <= k < j ==> !Overlaps(b, es[k])
  {
    if es == [] then 0
    else if Overlaps(b, es[0]) then 0
    else 1 + FirstOverlap(b, es[1..])
  }

  /** The state a player bullet can change: the enemies, the drops, the
      score, the player's coins, the level's destroyed-enemy counter and the
      position in the random stream. */
  datatype Tally = Tally(enemies: seq<Enemy>, drops: seq<Drop>, score: int, coins: int,
                         destroyed: int, cursor: nat)

  /** Destroyed enemies plus the regular enemies still alive: the number of
      regular enemies ever spawned, which no combat changes. */
  function Accounted(t: Tally): int {
    t.destroyed + RegularCount(t.enemies)
  }

  /** The drops left by a destroyed enemy: a coin if the first roll is below
      the coin chance, then a shield pack if the second is below the shield
      chance, both where the enemy was. */
  function Spoils(e: Enemy, now: int, coinRoll: Unit, shieldRoll: Unit): seq<Drop> {
    (if coinRoll < COIN_DROP_CHANCE then [Drop(Coin, e.x, e.y, now, false)] else []) +
    (if shieldRoll < SHIELD_DROP_CHANCE then [Drop(ShieldPack, e.x, e.y, now, false)] else [])
  }

  /** The bookkeeping of a kill: two random rolls for the drops, the
      destroyed counter (except for the boss), score and coins from the
      per-kind tables. The caller takes the enemy out of the list. */
  function Reward(t: Tally, e: Enemy, now: int, rng: nat -> Unit): Tally {
    t.(drops := t.drops + Spoils(e, now, rng(t.cursor), rng(t.cursor + 1)),
       destroyed := t.destroyed + (if e.kind == Boss then 0 else 1),
       score := t.score + ScoreFor(e.kind),
       coins := t.coins + CoinsFor(e.kind),
       cursor := t.cursor + 2)
  }

  function Hurt(e: Enemy, damage: int): Enemy {
    e.(health := e.health - damage)
  }

  /** A standard bullet's damage to the enemy at index j, which dies when its
      health reaches zero. */
  function Direct(t: Tally, j: nat, damage: int, now: int, rng: nat -> Unit): Tally
    requires j < |t.enemies|
  {
    var e := Hurt(t.enemies[j], damage);
    if e.health <= 0 then Reward(t.(enemies := Without(t.enemies, j)), e, now, rng)
    else t.(enemies := t.enemies[j := e])
  }

  /** The enemy's centre is strictly within the bomb's blast radius. */
  predicate InBlast(b: Bullet, e: Enemy) {
    (e.x - b.x) * (e.x - b.x) + (e.y - b.y) * (e.y - b.y) < (BOMB_AOE * BOMB_AOE) as real
  }

  /** An enemy as a bomb leaves it: damaged if within the radius. */
  function Scorched(b: Bullet, e: Enemy): Enemy {
    if InBlast(b, e) then Hurt(e, b.damage) else e
  }

  /** Whether a bomb destroys the enemy. A medic hit by the blast loses
      health but is never removed. */
  predicate Dies(b: Bullet, e: Enemy) {
    InBlast(b, e) && e.health - b.damage <= 0 && e.kind != Medic
  }

  /** The blast loop over the enemies `es` still to visit; `t.enemies` holds
      those already visited that survived. */
  function Sweep(es: seq<Enemy>, b: Bullet, t: Tally, now: int, rng: nat -> Unit): Tally
    decreases |es|
  {
    if es == [] then t
    else if Dies(b, es[0]) then Sweep(es[1..], b, Reward(t, Scorched(b, es[0]), now, rng), now, rng)
    else Sweep(es[1..], b, t.(enemies := t.enemies + [Scorched(b, es[0])]), now, rng)
  }

  /** A bomb's area damage over every enemy. */
  function Blast(t: Tally, b: Bullet, now: int, rng: nat -> Unit): Tally {
    Sweep(t.enemies, b, t.(enemies := []), now, rng)
  }

  /** The enemies a bomb leaves, defined without the bookkeeping: every enemy
      that does not die, damaged if it was within the radius, in order. */
  function Survivors(b: Bullet, es: seq<Enemy>): seq<Enemy> {
    if es == [] then []
    else (if Dies(b, es[0]) then [] else [Scorched(b, es[0])]) + Survivors(b, es[1..])
  }

  /** How many enemies a bomb destroys. */
  function Casualties(b: Bullet, es: seq<Enemy>): nat {
    if es == [] then 0 else (if Dies(b, es[0]) then 1 else 0) + Casualties(b, es[1..])
  }

  /** The blast loop leaves exactly the survivors, in order, and draws two
      rolls per kill. */
  lemma {:induction false} SweepSurvivors(es: seq<Enemy>, b: Bullet, t: Tally, now: int, rng: nat -> Unit)
    ensures Sweep(es, b, t, now, rng).enemies == t.enemies + Survivors(b, es)
    ensures Sweep(es, b, t, now, rng).cursor == t.cursor + 2 * Casualties(b, es)
    decreases |es|
  {
    if es != [] {
      var e := Scorched(b, es[0]);
      if Dies(b, es[0]) {
        SweepSurvivors(es[1..], b, Reward(t, e, now, rng), now, rng);
      } else {
        SweepSurvivors(es[1..], b, t.(enemies := t.enemies + [e]), now, rng);
        assert t.enemies + [e] + Survivors(b, es[1..]) == t.enemies + ([e] + Survivors(b, es[1..]));
      }
    }
  }

  /** The blast loop keeps destroyed-plus-alive: a regular enemy leaves the
      list only by adding one to the destroyed counter, and a boss leaves it
      without. */
  lemma {:induction false} SweepAccounts(es: seq<Enemy>, b: Bullet, t: Tally, now: int, rng: nat -> Unit)
    ensures Accounted(Sweep(es, b, t, now, rng)) == Accounted(t) + RegularCount(es)
    ensures Sweep(es, b, t, now, rng).destroyed >= t.destroyed
    decreases |es|
  {
    if es != [] {
      var e := Scorched(b, es[0]);
      if Dies(b, es[0]) {
        SweepAccounts(es[1..], b, Reward(t, e, now, rng), now, rng);
      } else {
        SweepAccounts(es[1..], b, t.(enemies := t.enemies + [e]), now, rng);
        CensusAppend(t.enemies, [e]);
      }
    }
  }

  /** Medics hit by a blast stay in the list, and no boss is added. */
  lemma SweepKinds(es: seq<Enemy>, b: Bullet, t: Tally, now: int, rng: nat -> Unit)
    ensures CountOf(Sweep(es, b, t, now, rng).enemies, Boss) <= CountOf(t.enemies, Boss) + CountOf(es, Boss)
    ensures CountOf(Sweep(es, b, t, now, rng).enemies, Medic) == CountOf(t.enemies, Medic) + CountOf(es, Medic)
  {
    SweepSurvivors(es, b, t, now, rng);
    CensusAppend(t.enemies, Survivors(b, es));
    SurvivorKinds(b, es);
  }

  lemma {:induction false} SurvivorKinds(b: Bullet, es: seq<Enemy>)
    ensures CountOf(Survivors(b, es), Boss) <= CountOf(es, Boss)
    ensures CountOf(Survivors(b, es), Medic) == CountOf(es, Medic)
    ensures |Survivors(b, es)| <= |es|
    ensures AllFit(es) ==> AllFit(Survivors(b, es))
  {
    if es != [] {
      SurvivorKinds(b, es[1..]);
      assert AllFit(es) ==> AllFit(es[1..]);
      var head := if Dies(b, es[0]) then [] else [Scorched(b, es[0])];
      CensusAppend(head, Survivors(b, es[1..]));
    }
  }

  /** What one player bullet does. */
  datatype Strike = Miss | Hit(after: Tally) | Fault

  /** The inner loop of the player-bullet pass for one bullet. The first
      overlapping enemy in list order takes the hit. A medic dies at once
      whatever the weapon, costs score and coins and drops nothing; the loop
      then goes on to the later enemies, and any further overlap makes the
      source remove the bullet a second time, which raises (Fault). A bomb
      damages every enemy within its radius; a standard bullet only the one
      it hit. */
  function Strike1(t: Tally, b: Bullet, now: int, rng: nat -> Unit): Strike {
    var es := t.enemies;
    var j := FirstOverlap(b, es);
    if j == |es| then Miss
    else if es[j].kind == Medic then
      if FirstOverlap(b, es[j + 1..]) < |es| - (j + 1) then Fault
      else Hit(t.(enemies := Without(es, j), score := t.score + ScoreFor(Medic), coins := t.coins + CoinsFor(Medic)))
    else if b.isBomb then Hit(Blast(t, b, now, rng))
    else Hit(Direct(t, j, b.damage, now, rng))
  }

  /** First match wins: a standard bullet whose first overlapping enemy (in
      list order) is at index j and is not a medic damages that enemy and no
      other; the enemy is taken out, with its reward, exactly when its health
      reaches zero. */
  lemma FirstMatchWins(t: Tally, b: Bullet, j: nat, now: int, rng: nat -> Unit)
    requires j < |t.enemies| && Overlaps(b, t.enemies[j])
    requires forall k :: 0 <= k < j ==> !Overlaps(b, t.enemies[k])
    requires t.enemies[j].kind != Medic && !b.isBomb
    ensures var e := Hurt(t.enemies[j], b.damage);
            Strike1(t, b, now, rng) ==
              if e.health <= 0 then Hit(Reward(t.(enemies := Without(t.enemies, j)), e, now, rng))
              else Hit(t.(enemies := t.enemies[j := e]))
  {
    assert FirstOverlap(b, t.enemies) == j;
  }

  /** Shooting a medic: the penalty on score and coins, no drop, no random
      roll, the destroyed counter untouched, and the medic gone, whatever the
      weapon; or a fault if the bullet also overlaps a later enemy. */
  lemma MedicPenalty(t: Tally, b: Bullet, j: nat, now: int, rng: nat -> Unit)
    requires j < |t.enemies| && Overlaps(b, t.enemies[j]) && t.enemies[j].kind == Medic
    requires forall k :: 0 <= k < j ==> !Overlaps(b, t.enemies[k])
    ensures (exists k :: j < k < |t.enemies| && Overlaps(b, t.enemies[k])) <==> Strike1(t, b, now, rng) == Fault
    ensures Strike1(t, b, now, rng).Hit? ==>
              Strike1(t, b, now, rng).after ==
                t.(enemies := Without(t.enemies, j), score := t.score - 25, coins := t.coins - 20)
  {
    assert FirstOverlap(b, t.enemies) == j;
    LaterOverlap(b, t.enemies, j);
  }

  /** The search finds an enemy exactly when the bullet overlaps one. */
  lemma {:induction false} OverlapFound(b: Bullet, es: seq<Enemy>)
    ensures FirstOverlap(b, es) < |es| <==> exists k :: 0 <= k < |es| && Overlaps(b, es[k])
  {
    if es != [] && !Overlaps(b, es[0]) {
      OverlapFound(b, es[1..]);
      if exists k :: 0 <= k < |es| && Overlaps(b, es[k]) {
        var k :| 0 <= k < |es| && Overlaps(b, es[k]);
        assert es[1..][k - 1] == es[k];
      }
    }
  }

  /** The search over the enemies after index j finds one exactly when the
      bullet overlaps an enemy after j. */
  lemma LaterOverlap(b: Bullet, es: seq<Enemy>, j: nat)
    requires j < |es|
    ensures FirstOverlap(b, es[j + 1..]) < |es| - (j + 1) <==> exists k :: j < k < |es| && Overlaps(b, es[k])
  {
    var tail := es[j + 1..];
    OverlapFound(b, tail);
    if exists k :: j < k < |es| && Overlaps(b, es[k]) {
      var k :| j < k < |es| && Overlaps(b, es[k]);
      assert tail[k - (j + 1)] == es[k];
    }
  }

  /** A bomb leaves exactly the survivors of its blast (an enemy exactly on
      the radius is outside it), and draws two rolls per enemy destroyed. */
  lemma BombReach(t: Tally, b: Bullet, now: int, rng: nat -> Unit)
    requires b.isBomb
    requires FirstOverlap(b, t.enemies) < |t.enemies| && t.enemies[FirstOverlap(b, t.enemies)].kind != Medic
    ensures Strike1(t, b, now, rng).Hit?
    ensures Strike1(t, b, now, rng).after.enemies == Survivors(b, t.enemies)
    ensures Strike1(t, b, now, rng).after.cursor == t.cursor + 2 * Casualties(b, t.enemies)
  {
    SweepSurvivors(t.enemies, b, t.(enemies := []), now, rng);
    assert [] + Survivors(b, t.enemies) == Survivors(b, t.enemies);
  }

  /** One bullet never changes destroyed-plus-alive, never adds a boss, and
      never adds enemies. */
  lemma StrikeConserves(t: Tally, b: Bullet, now: int, rng: nat -> Unit)
    requires Strike1(t, b, now, rng).Hit?
    ensures Accounted(Strike1(t, b, now, rng).after) == Accounted(t)
    ensures Strike1(t, b, now, rng).after.destroyed >= t.destroyed
    ensures CountOf(Strike1(t, b, now, rng).after.enemies, Boss) <= CountOf(t.enemies, Boss)
    ensures AllFit(t.enemies) ==> AllFit(Strike1(t, b, now, rng).after.enemies)
  {
    var es := t.enemies;
    var j := FirstOverlap(b, es);
    if es[j].kind == Medic {
      CensusWithout(es, j);
    } else if b.isBomb {
      SweepAccounts(es, b, t.(enemies := []), now, rng);
      SweepKinds(es, b, t.(enemies := []), now, rng);
      SweepSurvivors(es, b, t.(enemies := []), now, rng);
      SurvivorKinds(b, es);
      assert [] + Survivors(b, es) == Survivors(b, es);
    } else {
      var e := Hurt(es[j], b.damage);
      CensusWithout(es, j);
      CensusReplace(es, j, e);
    }
  }

  /** The outcome of the whole player-bullet pass: the new tally and the
      bullets that hit nothing, or a crash. */
  datatype Aftermath = Resolved(tally: Tally, bullets: seq<Bullet>) | Raised

  /** `kept` bullets in front of those an aftermath keeps. */
  function Keep(kept: seq<Bullet>, a: Aftermath): Aftermath {
    match a
    case Raised => Raised
    case Resolved(t, r) => Resolved(t, kept + r)
  }

  /** The player-bullet pass: each bullet in order against the enemies as the
      earlier bullets left them; a bullet that hits is removed. */
  function Volley(t: Tally, bs: seq<Bullet>, now: int, rng: nat -> Unit): Aftermath
    decreases |bs|
  {
    if bs == [] then Resolved(t, [])
    else
      match Strike1(t, bs[0], now, rng)
      case Fault => Raised
      case Hit(t') => Volley(t', bs[1..], now, rng)
      case Miss => Keep([bs[0]], Volley(t, bs[1..], now, rng))
  }

  /** The pass keeps destroyed-plus-alive, adds no boss and no enemy, and
      keeps only bullets it was given, in order. */
  lemma {:induction false} VolleyConserves(t: Tally, bs: seq<Bullet>, now: int, rng: nat -> Unit)
    requires Volley(t, bs, now, rng).Resolved?
    ensures Accounted(Volley(t, bs, now, rng).tally) == Accounted(t)
    ensures CountOf(Volley(t, bs, now, rng).tally.enemies, Boss) <= CountOf(t.enemies, Boss)
    ensures Volley(t, bs, now, rng).tally.destroyed >= t.destroyed
    ensures AllFit(t.enemies) ==> AllFit(Volley(t, bs, now, rng).tally.enemies)
    ensures |Volley(t, bs, now, rng).tally.enemies| <= |t.enemies|
    ensures |Volley(t, bs, now, rng).bullets| <= |bs|
    ensures forall x :: x in Volley(t, bs, now, rng).bullets ==> x in bs
    decreases |bs|
  {
    if bs != [] {
      match Strike1(t, bs[0], now, rng)
      case Fault =>
      case Hit(t') =>
        StrikeConserves(t, bs[0], now, rng);
        StrikeShrinks(t, bs[0], now, rng);
        VolleyConserves(t', bs[1..], now, rng);
      case Miss =>
        VolleyConserves(t, bs[1..], now, rng);
    }
  }

  /** One bullet never adds enemies. */
  lemma StrikeShrinks(t: Tally, b: Bullet, now: int, rng: nat -> Unit)
    requires Strike1(t, b, now, rng).Hit?
    ensures |Strike1(t, b, now, rng).after.enemies| <= |t.enemies|
  {
    var es := t.enemies;
    var j := FirstOverlap(b, es);
    if es[j].kind != Medic && b.isBomb {
      SweepSurvivors(es, b, t.(enemies := []), now, rng);
      SurvivorKinds(b, es);
    }
  }

  // ============================================= enemy bullets vs player

  /** The point lies strictly inside the player's box. */
  predicate Struck(px: int, x: real, y: real) {
    x > (px - HALF_WIDTH) as real && x < (px + HALF_WIDTH) as real &&
    y > (PLAYER_Y - HALF_HEIGHT) as real && y < (PLAYER_Y + HALF_HEIGHT) as real
  }

  predicate AllHarmful(bs: seq<Bullet>) {
    forall i :: 0 <= i < |bs| ==> bs[i].damage >= 0
  }

  /** The enemy-bullet pass: every bullet inside the player's box is
      absorbed, in order, by the shield or by health, and removed. */
  function Incoming(p: Pilot, bs: seq<Bullet>): (r: (Pilot, seq<Bullet>))
    requires AllHarmful(bs)
    ensures r.0.x == p.x && r.0.coins == p.coins && r.0.upgrades == p.upgrades
    ensures r.0.health <= p.health
    ensures forall b :: b in r.1 ==> b in bs
    ensures Sound(p) ==> Sound(r.0)
    decreases |bs|
  {
    if bs == [] then (p, [])
    else if Struck(p.x, bs[0].x, bs[0].y) then Incoming(Shot(p, bs[0].damage), bs[1..])
    else
      var (p', rest) := Incoming(p, bs[1..]);
      (p', [bs[0]] + rest)
  }

  /** The bullets outside the player's box at x = px, in order. */
  function Misses(px: int, bs: seq<Bullet>): seq<Bullet> {
    if bs == [] then []
    else (if Struck(px, bs[0].x, bs[0].y) then [] else [bs[0]]) + Misses(px, bs[1..])
  }

  /** Total damage of the bullets inside the player's box at x = px. */
  function HitDamage(px: int, bs: seq<Bullet>): int {
    if bs == [] then 0
    else (if Struck(px, bs[0].x, bs[0].y) then bs[0].damage else 0) + HitDamage(px, bs[1..])
  }

  /** Every bullet that reaches the player is removed and every other one
      kept, whatever the shield does. */
  lemma {:induction false} IncomingRemovesHits(p: Pilot, bs: seq<Bullet>)
    requires AllHarmful(bs)
    ensures Incoming(p, bs).1 == Misses(p.x, bs)
    decreases |bs|
  {
    if bs != [] {
      if Struck(p.x, bs[0].x, bs[0].y) {
        IncomingRemovesHits(Shot(p, bs[0].damage), bs[1..]);
      } else {
        IncomingRemovesHits(p, bs[1..]);
      }
    }
  }

  /** Without a shield, health drops by exactly the total damage of the
      bullets that reach the player, with no clamping, and nothing else
      changes. */
  lemma {:induction false} IncomingUnshielded(p: Pilot, bs: seq<Bullet>)
    requires AllHarmful(bs) && !p.shieldActive
    ensures Incoming(p, bs).0 == p.(health := p.health - HitDamage(p.x, bs))
    decreases |bs|
  {
    if bs != [] {
      if Struck(p.x, bs[0].x, bs[0].y) {
        IncomingUnshielded(Shot(p, bs[0].damage), bs[1..]);
      } else {
        IncomingUnshielded(p, bs[1..]);
      }
    }
  }

  /** A shield with more charge than the total damage absorbs all of it:
      health is unchanged, the meter drops by exactly that total and the
      shield stays on. */
  lemma {:induction false} IncomingShielded(p: Pilot, bs: seq<Bullet>)
    requires AllHarmful(bs) && p.shieldActive && p.shieldMeter > HitDamage(p.x, bs) as real
    ensures Incoming(p, bs).0 == p.(shieldMeter := p.shieldMeter - HitDamage(p.x, bs) as real)
    decreases |bs|
  {
    if bs != [] {
      assert HitDamage(p.x, bs[1..]) >= 0 by { HitDamageNonNegative(p.x, bs[1..]); }
      if Struck(p.x, bs[0].x, bs[0].y) {
        IncomingShielded(Shot(p, bs[0].damage), bs[1..]);
      } else {
        IncomingShielded(p, bs[1..]);
      }
    }
  }

  lemma {:induction false} HitDamageNonNegative(px: int, bs: seq<Bullet>)
    requires AllHarmful(bs)
    ensures HitDamage(px, bs) >= 0
  {
    if bs != [] {
      HitDamageNonNegative(px, bs[1..]);
    }
  }

  // ============================================= laser vs player

  /** The laser pass: a beam whose end point lies inside the player's box and
      that has not hit yet burns the player (shield 2, else health 10) and is
      marked as having hit. */
  function Scorch(p: Pilot, ls: seq<Laser>): (r: (Pilot, seq<Laser>))
    ensures |r.1| == |ls|
    ensures forall i :: 0 <= i < |ls| ==>
              r.1[i] == ls[i].(hitPlayer := ls[i].hitPlayer || Struck(p.x, ls[i].end.x, ls[i].end.y))
    ensures r.0.x == p.x && r.0.coins == p.coins && r.0.upgrades == p.upgrades
    ensures Sound(p) ==> Sound(r.0)
    decreases |ls|
  {
    if ls == [] then (p, [])
    else
      var l := ls[0];
      if !l.hitPlayer && Struck(p.x, l.end.x, l.end.y) then
        var (p', rest) := Scorch(Burned(p), ls[1..]);
        (p', [l.(hitPlayer := true)] + rest)
      else
        var (p', rest) := Scorch(p, ls[1..]);
        (p', [l] + rest)
  }

  /** The beams that hit the player in this pass. */
  function FreshBurns(px: int, ls: seq<Laser>): nat {
    if ls == [] then 0
    else (if !ls[0].hitPlayer && Struck(px, ls[0].end.x, ls[0].end.y) then 1 else 0) + FreshBurns(px, ls[1..])
  }

  /** A beam damages at most once: running the pass again on what it left
      (the player has not moved) changes nothing. */
  lemma {:induction false} ScorchOnce(p: Pilot, ls: seq<Laser>)
    ensures Scorch(Scorch(p, ls).0, Scorch(p, ls).1) == Scorch(p, ls)
  {
    var (p1, ls1) := Scorch(p, ls);
    NoFreshBurns(p1, ls1);
    assert FreshBurns(p1.x, ls1) == 0;
    Unburnt(p1, ls1);
  }

  /** After the pass, no beam is left that could still hit the player. */
  lemma {:induction false} NoFreshBurns(p: Pilot, ls: seq<Laser>)
    requires forall i :: 0 <= i < |ls| ==> ls[i].hitPlayer || !Struck(p.x, ls[i].end.x, ls[i].end.y)
    ensures FreshBurns(p.x, ls) == 0
  {
    if ls != [] {
      NoFreshBurns(p, ls[1..]);
    }
  }

  /** With no fresh hit the pass is the identity. */
  lemma {:induction false} Unburnt(p: Pilot, ls: seq<Laser>)
    requires FreshBurns(p.x, ls) == 0
    ensures Scorch(p, ls) == (p, ls)
  {
    if ls != [] {
      Unburnt(p, ls[1..]);
      assert ls == [ls[0]] + ls[1..];
    }
  }

  /** Without a shield each beam that hits for the first time costs exactly
      10 health, and nothing else about the player changes. */
  lemma {:induction false} ScorchUnshielded(p: Pilot, ls: seq<Laser>)
    requires !p.shieldActive
    ensures Scorch(p, ls).0 == p.(health := p.health - BOSS_LASER_DAMAGE * FreshBurns(p.x, ls))
    decreases |ls|
  {
    if ls != [] {
      var l := ls[0];
      if !l.hitPlayer && Struck(p.x, l.end.x, l.end.y) {
        ScorchUnshielded(Burned(p), ls[1..]);
      } else {
        ScorchUnshielded(p, ls[1..]);
      }
    }
  }

  // ============================================= player vs drops

  /** The drop is closer than one player width to the player's centre
      (the source's sqrt(d) < width, squared). */
  predicate InReach(px: int, d: Drop) {
    var dx := px as real - d.x;
    var dy := PLAYER_Y as real - d.y;
    dx * dx + dy * dy < (PLAYER_WIDTH * PLAYER_WIDTH) as real
  }

  /** The pickup pass: every drop within reach is collected, in order, and
      removed. */
  function Gather(p: Pilot, ds: seq<Drop>): (r: (Pilot, seq<Drop>))
    ensures r.0.x == p.x && r.0.health == p.health && r.0.shieldActive == p.shieldActive
    ensures r.0.upgrades == p.upgrades
    ensures Sound(p) ==> Sound(r.0)
    decreases |ds|
  {
    if ds == [] then (p, [])
    else if InReach(p.x, ds[0]) then Gather(Collect(p, ds[0].kind), ds[1..])
    else
      var (p', rest) := Gather(p, ds[1..]);
      (p', [ds[0]] + rest)
  }

  /** The drops out of reach of the player at x = px, in order. */
  function OutOfReach(px: int, ds: seq<Drop>): seq<Drop> {
    if ds == [] then []
    else (if InReach(px, ds[0]) then [] else [ds[0]]) + OutOfReach(px, ds[1..])
  }

  /** How many drops of the given kind are within reach. */
  function Reachable(px: int, ds: seq<Drop>, kind: DropKind): nat {
    if ds == [] then 0
    else (if InReach(px, ds[0]) && ds[0].kind == kind then 1 else 0) + Reachable(px, ds[1..], kind)
  }

  function MinReal(a: real, b: real): real { if a <= b then a else b }

  /** Every drop in reach is consumed and every other one kept; each coin adds
      exactly 10 coins; the shield packs refill the meter by 20 each, capped
      at the maximum once and for all. */
  lemma {:induction false} GatherSpec(p: Pilot, ds: seq<Drop>)
    requires p.shieldMeter <= SHIELD_METER_MAX
    ensures Gather(p, ds).1 == OutOfReach(p.x, ds)
    ensures Gather(p, ds).0.coins == p.coins + COIN_PICKUP_VALUE * Reachable(p.x, ds, Coin)
    ensures Gather(p, ds).0.shieldMeter ==
              MinReal(SHIELD_METER_MAX, p.shieldMeter + 20.0 * Reachable(p.x, ds, ShieldPack) as real)
    decreases |ds|
  {
    if ds != [] {
      if InReach(p.x, ds[0]) {
        GatherSpec(Collect(p, ds[0].kind), ds[1..]);
      } else {
        GatherSpec(p, ds[1..]);
      }
    }
  }
}
