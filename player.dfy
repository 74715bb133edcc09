/** The player's tank: its state as a value (Pilot) with the rules that change
    it, and the Player object of the source whose methods update it in place. */
module Pilots {
  import opened Settings
  import opened Entities

  /** The player's state that the game rules read and write. The cannon
      angle and the unused is_hit_by_laser flag are not part of it. */
  datatype Pilot = Pilot(x: int, health: int, shieldActive: bool, shieldMeter: real,
                         coins: int, upgrades: map<Upgrade, bool>)

  const HALF_WIDTH: int := PLAYER_WIDTH / 2
  const HALF_HEIGHT: int := PLAYER_HEIGHT / 2

  predicate Owns(p: Pilot, u: Upgrade) {
    u in p.upgrades && p.upgrades[u]
  }

  /** What holds of the player between any two statements of a tick: the tank
      is on screen, the meter is within [0, max], an active shield has charge
      left, and every upgrade has an entry. Health is NOT bounded: the source
      never clamps it. */
  predicate Sound(p: Pilot) {
    OnScreen(p.x) &&
    0.0 <= p.shieldMeter <= SHIELD_METER_MAX &&
    (p.shieldActive ==> p.shieldMeter > 0.0) &&
    p.upgrades.Keys == ALL_UPGRADES
  }

  /** Player.__init__. */
  function Recruit(): (p: Pilot)
    ensures Sound(p) && p.health == PLAYER_HEALTH && p.coins == 0
    ensures !p.shieldActive && p.shieldMeter == SHIELD_METER_MAX
    ensures forall u :: !Owns(p, u)
  {
    Pilot(SCREEN_WIDTH / 2, PLAYER_HEALTH, false, SHIELD_METER_MAX, 0,
          map[RapidFire := false, BombGun := false, ShieldUpgrade := false])
  }

  function Max(a: int, b: int): int { if a >= b then a else b }
  function Min(a: int, b: int): int { if a <= b then a else b }

  /** The movement half of Player.update: left is applied first, then right,
      each clamped to keep the tank on screen. */
  predicate OnScreen(x: int) {
    HALF_WIDTH <= x <= SCREEN_WIDTH - HALF_WIDTH
  }

  function Steer(x: int, left: bool, right: bool): (r: int)
    ensures OnScreen(x) ==> OnScreen(r) && x - PLAYER_SPEED <= r <= x + PLAYER_SPEED
    ensures !left && !right ==> r == x
    ensures OnScreen(x) && left && !right ==> r <= x && (r == x - PLAYER_SPEED || r == HALF_WIDTH)
    ensures OnScreen(x) && right && !left ==> r >= x && (r == x + PLAYER_SPEED || r == SCREEN_WIDTH - HALF_WIDTH)
  {
    var afterLeft := if left then Max(HALF_WIDTH, x - PLAYER_SPEED) else x;
    if right then Min(SCREEN_WIDTH - HALF_WIDTH, afterLeft + PLAYER_SPEED) else afterLeft
  }

  /** The meter drained per tick while the shield is on; the shield upgrade
      halves it. */
  function DrainRate(p: Pilot): (r: real)
    ensures r > 0.0
    ensures !Owns(p, ShieldUpgrade) ==> r == SHIELD_DRAIN_RATE
    ensures Owns(p, ShieldUpgrade) ==> 2.0 * r == SHIELD_DRAIN_RATE
  {
    if Owns(p, ShieldUpgrade) then SHIELD_DRAIN_RATE * 0.5 else SHIELD_DRAIN_RATE
  }

  /** The shield half of Player.update. Holding space switches the shield on
      if it has charge; releasing it switches it off. While on, the meter
      drains, and once it reaches zero it is set to exactly zero and the
      shield switches off. */
  function ShieldStep(p: Pilot, space: bool): (r: Pilot)
    ensures r.x == p.x && r.health == p.health && r.coins == p.coins && r.upgrades == p.upgrades
    ensures !space ==> !r.shieldActive && r.shieldMeter == p.shieldMeter
    ensures space && (p.shieldActive || p.shieldMeter > 0.0) ==>
              if p.shieldMeter - DrainRate(p) <= 0.0 then r.shieldMeter == 0.0 && !r.shieldActive
              else r.shieldMeter == p.shieldMeter - DrainRate(p) && r.shieldActive
    ensures space && !p.shieldActive && p.shieldMeter <= 0.0 ==> r == p
    ensures r.shieldActive ==> space && r.shieldMeter > 0.0
    ensures Sound(p) ==> Sound(r)
  {
    var active := if space then p.shieldActive || p.shieldMeter > 0.0 else false;
    if active then
      var m := p.shieldMeter - DrainRate(p);
      if m <= 0.0 then p.(shieldMeter := 0.0, shieldActive := false)
      else p.(shieldMeter := m, shieldActive := true)
    else p.(shieldActive := false)
  }

  /** Player.update without the cannon aiming. */
  function Drive(p: Pilot, left: bool, right: bool, space: bool): (r: Pilot)
    ensures r.health == p.health && r.coins == p.coins && r.upgrades == p.upgrades
    ensures Sound(p) ==> Sound(r)
  {
    ShieldStep(p.(x := Steer(p.x, left, right)), space)
  }

  /** A hit on the player: an active shield loses `drain` (clamped at zero,
      switching off when empty) and health is untouched; otherwise health
      loses `harm`, with no lower bound. */
  function Soak(p: Pilot, drain: real, harm: int): (r: Pilot)
    requires drain >= 0.0
    ensures r.x == p.x && r.coins == p.coins && r.upgrades == p.upgrades
    ensures p.shieldActive ==> r.health == p.health
    ensures p.shieldActive && p.shieldMeter - drain <= 0.0 ==> r.shieldMeter == 0.0 && !r.shieldActive
    ensures p.shieldActive && p.shieldMeter - drain > 0.0 ==> r.shieldMeter == p.shieldMeter - drain && r.shieldActive
    ensures !p.shieldActive ==> r == p.(health := p.health - harm)
    ensures Sound(p) ==> Sound(r)
  {
    if p.shieldActive then
      var m := p.shieldMeter - drain;
      if m <= 0.0 then p.(shieldMeter := 0.0, shieldActive := false)
      else p.(shieldMeter := m)
    else p.(health := p.health - harm)
  }

  /** An enemy bullet reaching the player: its damage goes to the shield
      meter if the shield is on, otherwise to health. */
  function Shot(p: Pilot, damage: int): Pilot
    requires damage >= 0
  {
    Soak(p, damage as real, damage)
  }

  /** A laser beam reaching the player: 2 from the shield meter, or 10 from
      health. */
  function Burned(p: Pilot): Pilot
  {
    Soak(p, BOSS_LASER_SHIELD_DRAIN, BOSS_LASER_DAMAGE)
  }

  /** Picking up a drop: a coin adds 10 coins; a shield pack restores 20% of
      the maximum, capped at the maximum. Nothing else changes. */
  function Collect(p: Pilot, kind: DropKind): (r: Pilot)
    ensures kind == Coin ==> r == p.(coins := p.coins + COIN_PICKUP_VALUE)
    ensures kind == ShieldPack ==> r == p.(shieldMeter := if p.shieldMeter + 20.0 <= SHIELD_METER_MAX
                                                         then p.shieldMeter + 20.0 else SHIELD_METER_MAX)
    ensures Sound(p) ==> Sound(r)
  {
    match kind
    case Coin => p.(coins := p.coins + COIN_PICKUP_VALUE)
    case ShieldPack =>
      var refill := SHIELD_METER_MAX * SHIELD_REFILL_ON_PICKUP / 100.0;
      var m := p.shieldMeter + refill;
      p.(shieldMeter := if SHIELD_METER_MAX <= m then SHIELD_METER_MAX else m)
  }

  /** The message buy_upgrade leaves for the shop screen. */
  datatype Purchase = Purchased | AlreadyOwned | NotEnoughCoins

  /** buy_upgrade: a purchase succeeds exactly when the player can afford the
      upgrade and does not own it yet; it then sets the flag and takes exactly
      the cost. Otherwise nothing changes. */
  function Buy(p: Pilot, u: Upgrade): (r: (Pilot, Purchase))
    ensures r.1 == Purchased <==> p.coins >= Cost(u) && !Owns(p, u)
    ensures r.1 == AlreadyOwned <==> Owns(p, u)
    ensures r.1 == NotEnoughCoins <==> !Owns(p, u) && p.coins < Cost(u)
    ensures r.1 == Purchased ==> r.0 == p.(coins := p.coins - Cost(u), upgrades := p.upgrades[u := true])
    ensures r.1 != Purchased ==> r.0 == p
    ensures Sound(p) ==> Sound(r.0)
  {
    if p.coins >= Cost(u) && !Owns(p, u) then
      (p.(upgrades := p.upgrades[u := true], coins := p.coins - Cost(u)), Purchased)
    else if Owns(p, u) then (p, AlreadyOwned)
    else (p, NotEnoughCoins)
  }

  /** Buying the same upgrade twice charges once: the second attempt reports
      that it is owned and changes nothing. */
  lemma BuyTwice(p: Pilot, u: Upgrade)
    requires Buy(p, u).1 == Purchased
    ensures Buy(Buy(p, u).0, u) == (Buy(p, u).0, AlreadyOwned)
  {
  }

  /** A visit to the shop: buy_upgrade for each button pressed, in order. */
  function Shop(p: Pilot, picks: seq<Upgrade>): (r: Pilot)
    ensures Sound(p) ==> Sound(r)
    ensures r.x == p.x && r.health == p.health && r.shieldActive == p.shieldActive && r.shieldMeter == p.shieldMeter
    decreases |picks|
  {
    if picks == [] then p else Buy(Shop(p, picks[..|picks| - 1]), picks[|picks| - 1]).0
  }

  /** The total cost of the upgrades `q` owns and `p` does not. */
  function Spent(p: Pilot, q: Pilot): int {
    (if Owns(q, RapidFire) && !Owns(p, RapidFire) then Cost(RapidFire) else 0) +
    (if Owns(q, BombGun) && !Owns(p, BombGun) then Cost(BombGun) else 0) +
    (if Owns(q, ShieldUpgrade) && !Owns(p, ShieldUpgrade) then Cost(ShieldUpgrade) else 0)
  }

  /** However many times the buttons are pressed, an upgrade once owned stays
      owned, and the coins drop by exactly the price of each upgrade newly
      owned, once: nothing is charged twice. */
  lemma {:induction false} ShopCharges(p: Pilot, picks: seq<Upgrade>)
    ensures forall u :: Owns(p, u) ==> Owns(Shop(p, picks), u)
    ensures Shop(p, picks).coins == p.coins - Spent(p, Shop(p, picks))
    decreases |picks|
  {
    if picks != [] {
      ShopCharges(p, picks[..|picks| - 1]);
      BuyCharges(p, Shop(p, picks[..|picks| - 1]), picks[|picks| - 1]);
    }
  }

  /** One press of a shop button keeps the account of ShopCharges. */
  lemma BuyCharges(p: Pilot, q: Pilot, u: Upgrade)
    requires forall v :: Owns(p, v) ==> Owns(q, v)
    requires q.coins == p.coins - Spent(p, q)
    ensures forall v :: Owns(p, v) ==> Owns(Buy(q, u).0, v)
    ensures Buy(q, u).0.coins == p.coins - Spent(p, Buy(q, u).0)
  {
  }

  /** The player object of the source. */
  class Player {
    var x: int
    var health: int
    var shieldActive: bool
    var shieldMeter: real
    var coins: int
    var upgrades: map<Upgrade, bool>

    function View(): Pilot
      reads this
    {
      Pilot(x, health, shieldActive, shieldMeter, coins, upgrades)
    }

    ghost predicate Valid()
      reads this
    {
      Sound(View())
    }

    constructor ()
      ensures Valid() && View() == Recruit()
    {
      x := SCREEN_WIDTH / 2;
      health := PLAYER_HEALTH;
      shieldActive := false;
      shieldMeter := SHIELD_METER_MAX;
      coins := 0;
      upgrades := map[RapidFire := false, BombGun := false, ShieldUpgrade := false];
    }

    /** Player.update, movement and shield. */
    method Update(left: bool, right: bool, space: bool)
      requires Valid()
      modifies this
      ensures Valid() && View() == Drive(old(View()), left, right, space)
    {
      if left {
        x := Max(HALF_WIDTH, x - PLAYER_SPEED);
      }
      if right {
        x := Min(SCREEN_WIDTH - HALF_WIDTH, x + PLAYER_SPEED);
      }
      if space {
        if !shieldActive && shieldMeter > 0.0 {
          shieldActive := true;
        }
      } else {
        shieldActive := false;
      }
      if shieldActive {
        var drain := SHIELD_DRAIN_RATE;
        if upgrades[ShieldUpgrade] {
          drain := drain * 0.5;
        }
        shieldMeter := shieldMeter - drain;
        if shieldMeter <= 0.0 {
          shieldMeter := 0.0;
          shieldActive := false;
        }
      }
    }

    /** The shield absorbing a hit in place: the meter loses `drain` (and
        the shield drops once it is empty), or without a shield health
        loses `harm`. */
    method Absorb(drain: real, harm: int)
      requires drain >= 0.0
      modifies this
      ensures View() == Soak(old(View()), drain, harm)
    {
      if shieldActive {
        shieldMeter := shieldMeter - drain;
        if shieldMeter <= 0.0 {
          shieldMeter := 0.0;
          shieldActive := false;
        }
      } else {
        health := health - harm;
      }
    }

    /** Picking up a drop in place. */
    method Pick(kind: DropKind)
      modifies this
      ensures View() == Collect(old(View()), kind)
    {
      if kind == Coin {
        coins := coins + COIN_PICKUP_VALUE;
      } else {
        var m := shieldMeter + SHIELD_METER_MAX * SHIELD_REFILL_ON_PICKUP / 100.0;
        shieldMeter := if SHIELD_METER_MAX <= m then SHIELD_METER_MAX else m;
      }
    }

    /** buy_upgrade. */
    method BuyUpgrade(u: Upgrade) returns (message: Purchase)
      requires Valid()
      modifies this
      ensures Valid() && (View(), message) == Buy(old(View()), u)
    {
      var cost := Cost(u);
      if coins >= cost && !upgrades[u] {
        upgrades := upgrades[u := true];
        coins := coins - cost;
        message := Purchased;
      } else if upgrades[u] {
        message := AlreadyOwned;
      } else {
        message := NotEnoughCoins;
      }
    }
  }
}
