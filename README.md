# Loser: the rules of one tick, in Dafny

Loser is a pygame arcade shooter. The player drives a tank along the bottom
of the screen and shoots at helicopters, jets and tanks. A medic helicopter
must be spared. Once a level's quota of kills is reached, a boss arrives.
It cycles through aimed bullets, falling bombs and a laser beam that is
announced by a warning line. Enemies drop coins and shield packs, and coins
buy upgrades in a shop.

This project models the rules of that game: everything one iteration of
`run_game`'s loop does to the game state, apart from drawing, sound and
input reading. It has two layers.

* **A value layer.** The state is the datatype `Runs.Run` and each block of
  the loop body is a function of it. One tick is `World.Tick`, built in the
  source's order from these steps:
  * visiting the shop, moving and switching the shield, firing
    (`Pilots.Drive`, `World.Trigger`);
  * spawning and summoning the boss (`Spawner.Spawn`, `BossFight.Summon`);
  * the boss's attack state machine (`BossFight.Assault`);
  * moving everything (`World.Advance`);
  * the four collision passes (`World.Collide`);
  * cleanup and recycling (`Cleanup.Tidy`);
  * the win and loss checks (`Cleanup.Judge`).

  The properties are lemmas about these functions. The main one is the run
  invariant `World.Inv`, which every tick keeps (`World.TickInv`).
* **An object layer.** The same tick is written the way the source does it,
  by changing things in place:
  * `Pilots.Player` is the player object, with `update`, the shield
    bookkeeping of the collision passes and `buy_upgrade` as methods;
  * `Arcade.Game` holds `run_game`'s local variables and the globals it
    uses, with one method per block of the loop body;
  * the list passes are `while` loops over `seq` fields, with invariants.

  Each method is proved to leave exactly the state that the matching
  value-layer function describes. `Arcade.Game.Frame` is one whole tick,
  proved equal to `World.Tick`, and it keeps `World.Inv`.

Modules, in dependency order:

| module | file | contents |
|---|---|---|
| `Settings` | settings.dfy | `GAME_SETTINGS`, the screen size, enemy kinds, upgrades, score, coin and cost tables |
| `Entities` | entities.dfy | bullets, boss bombs, drops, enemies, beams and warnings, and their `update` steps |
| `Pilots` | player.dfy | the player as a value (`Pilot`) and as an object (`Player`), the shield rules and `buy_upgrade` |
| `Census` | census.dfy | counting enemies by kind, for the on-screen cap, the quota and the boss |
| `Combat` | combat.dfy | the four collision passes |
| `Runs` | run.dfy | the state of one run and its start |
| `Spawner` | spawner.dfy | spawning air raiders, tanks and medics |
| `BossFight` | boss.dfy | the boss's arrival and attack state machine |
| `Cleanup` | cleanup.dfy | list filters, enemy recycling and the outcome of a tick |
| `World` | world.dfy | one tick as a function, and the run invariant |
| `Arcade` | game.dfy | the game object whose methods perform a tick in place |
| `Sessions` | session.dfy | unlocking levels across runs |

Inputs the source reads from outside the rules become parameters:

* **The clock.** `pygame.time.get_ticks()` is a `now` that is fixed for the
  whole tick.
* **Randomness.** `random.random()` is a stream `rng: nat -> Unit` of values
  in [0, 1). The state carries a cursor that counts the draws used, so
  every roll is taken in the source's order.
* **Aiming.** `atan2`, `cos` and `sin` become an `Aim` function that turns
  a source, a target and a speed into a velocity. The player's shot
  velocity is part of the controls.
* **Keys and mouse.** These are the `World.Controls` record: the shop
  buttons pressed, the left, right, space and fire inputs, and the shot
  velocity.

Enemy, bullet and drop positions and the shield meter are exact reals. The
player's x is an integer: it starts at 400, moves by 5 and is clamped to
[30, 770]. The source's `sqrt(d) < r` is written as `d < r * r`.

Behaviour modelled as written:

* Health is never clamped. It can go below zero, and a level is lost when
  `health <= 0`.
* Air and tank spawns share one gate that is evaluated once per tick. On
  level 2 the spawned counter can therefore overshoot the quota by one
  (`Spawner.QuotaOvershoot`).
* A bomb's blast lowers a medic's health but never removes it.
* The boss state machine fires from `enemies[0]`, whatever enemy that is.
* After a medic is hit, the inner loop goes on. If the same bullet overlaps
  a later enemy, the source calls `bullets.remove` a second time, which
  raises `ValueError` and ends the program. The model reports this as the
  outcome `Crashed`.
* `current_boss_attack` is a global that `run_game` never resets, so it
  carries over from one run to the next.

* Tanks enter at x = 0 or x = 800, outside their side walls at 40 and 760,
  so their first step counts as reaching a wall and reverses them. They
  then step back and forth at the edge (`Entities.TankStuckAtEdge`).
* A pickup happens within the player's full width, 60, of the drop.
* `run_game` creates a new `Player` for every run, so coins and upgrades
  start from zero each time.

## Model

| member | source | states |
|---|---|---|
| `Entities.Uniform` | loser.py:414-417 | `random.uniform(a, b)` lies in [a, b] |
| `Entities.BossBomb` | loser.py:326-330 | a boss bomb is a bomb that falls, not yet grounded, with the boss bomb damage 20 |
| `Entities.Fly` | loser.py:317-340 | a bullet's update keeps its damage, its bomb flag and whether it flies straight or falls |
| `Entities.StraightFlight` | loser.py:317-320 | after k updates a straight bullet is k velocities from its start, with its velocity unchanged |
| `Entities.FallingLands` | loser.py:332-340 | falling at a positive speed from above the ground, something is grounded after k ticks exactly when start + k·speed reaches `SCREEN_HEIGHT - 60`; it is then at that height, otherwise at start + k·speed |
| `Entities.BombLanding` | loser.py:332-340 | a boss bomb falls as `FallingLands` says; once grounded its velocity is zero, and it keeps its x and its damage |
| `Entities.Sink` | loser.py:564-570 | a drop's update changes only its height and grounded flag; a grounded drop stays put; it is grounded exactly when it was or the next step reaches the ground, and it never passes the ground |
| `Entities.DropLanding` | loser.py:564-570 | after k updates a drop has fallen k·2 or is resting on the ground, exactly as a boss bomb does |
| `Entities.NewEnemy` | loser.py:401-417 | an enemy entering at x = 0 moves right and any other moves left; a boss moves vertically at its speed; a tank does not move vertically; other kinds get a random vertical speed in [-1, 1]; last fire time is now |
| `Entities.Move` | loser.py:479-503 | a tank moves along x by its speed and reverses once at or past a side wall (half its width from the edge), never moving vertically; the boss does the same on x and also bounces on y between half its height and half the screen minus that; an air enemy keeps its horizontal velocity and bounces on y at or past 10% and 50% of the screen height; nothing but position and velocity changes |
| `Entities.BounceWithin` | loser.py:481-503 | one bounce step with a speed smaller than the band keeps a body inside its band, or just outside and heading back in, and keeps its speed |
| `Entities.AirBand` | loser.py:494-503 | an air enemy in the band between 10% and 50% of the screen height, with vertical speed at most 1, stays in that band and keeps its vertical speed |
| `Entities.TankStuckAtEdge` | loser.py:481-484 | a tank at x = 0 or x = 800 moving inwards by at most 2 is back where it started, with the same velocity, after two steps |
| `Entities.Fire` | loser.py:505-530 | a boss never fires here; any other enemy fires exactly when it can fire and more than its kind's interval divided by the level modifier has passed; a shot leaves from the enemy, deals 10 for a tank and 5 otherwise, and sets last fire to now; with no shot nothing changes |
| `Entities.FireCooldown` | loser.py:524-527 | an enemy that just fired does not fire again until more than its interval has passed |
| `Entities.LaserAged` | loser.py:382-387 | a beam becomes done once more than its duration has passed (`Expired`), stays done, and nothing else about it changes |
| `Entities.WarningAged` | loser.py:354-359 | a warning becomes done by the same `Expired` test, stays done, and nothing else about it changes |
| `Pilots.Recruit` | loser.py:187-198 | a new player has 100 health, 0 coins, a full inactive shield and no upgrade, and is in a sound state |
| `Pilots.Steer` | loser.py:246-250 | movement keeps the tank on screen, moves by at most the speed, and moves left or right by exactly the speed unless clamped at the edge |
| `Pilots.DrainRate` | loser.py:259-263 | the shield drains 0.15 per tick, or half that with the shield upgrade |
| `Pilots.ShieldStep` | loser.py:252-267 | releasing space switches the shield off and keeps the meter; holding it with charge left drains the meter by the drain rate, clamping at exactly 0 and switching off there; with an empty meter nothing changes; an active shield always has charge; the meter stays in [0, 100] |
| `Pilots.Drive` | loser.py:244-267 | `Player.update` without aiming keeps health, coins and upgrades, and keeps the player sound |
| `Pilots.Soak` | loser.py:1087-1095 | an active shield takes the hit on its meter, clamped at 0 with the shield switching off, and health is unchanged; without a shield health drops by exactly the damage, unclamped, and nothing else changes |
| `Pilots.Collect` | loser.py:1123-1128 | a coin adds exactly 10 coins; a shield pack sets the meter to min(100, meter + 20); nothing else changes |
| `Pilots.Buy` | loser.py:648-659 | a purchase succeeds exactly when the player has enough coins and does not own the upgrade; it then sets the flag and takes exactly the cost; otherwise nothing changes, and the message says whether it was owned or unaffordable |
| `Pilots.BuyTwice` | loser.py:651-656 | buying an upgrade just bought reports it owned and charges nothing |
| `Pilots.Shop` | loser.py:648-659 | a shop visit keeps position, health and shield, and keeps the player sound |
| `Pilots.ShopCharges` | loser.py:648-659 | over any sequence of button presses, an owned upgrade stays owned and coins drop by exactly the price of each newly owned upgrade, once |
| `Pilots.BuyCharges` | loser.py:648-659 | one button press keeps the account that `ShopCharges` states: owned upgrades stay owned, and the coins spent are the prices of the newly owned upgrades |
| `Pilots.Player.constructor` | loser.py:187-198 | the player object starts as `Recruit` |
| `Pilots.Player.Update` | loser.py:244-267 | the in-place update ends in `Drive` of the old state and keeps the player sound |
| `Pilots.Player.Absorb` | loser.py:1087-1095 | the in-place hit ends in `Soak` of the old state |
| `Pilots.Player.Pick` | loser.py:1123-1128 | the in-place pickup ends in `Collect` of the old state |
| `Pilots.Player.BuyUpgrade` | loser.py:648-659 | the in-place purchase returns the message and ends in the state that `Buy` gives, and keeps the player sound |
| `Census.CountOf` | loser.py:923 | a count of enemies of one kind never exceeds the list's length |
| `Census.CensusWithout` | loser.py:1071 | removing one enemy lowers exactly its own kind's count, by one |
| `Census.CensusReplace` | loser.py:1058 | damaging an enemy in place changes no count |
| `Spawner.Side` | loser.py:927 | an enemy enters at the left edge or the right edge |
| `Spawner.AirRaider` | loser.py:925-932 | an air raider is a helicopter with 10 health or a jet with 20, enters at an edge, flies between 10% and 50% of the screen height with vertical speed in [-1, 1], can fire, and has the level as its modifier |
| `Spawner.GroundRaider` | loser.py:936-939 | a tank has 50 health, is on the ground with no vertical speed, enters at an edge, can fire, and has the level as its modifier |
| `Spawner.Medevac` | loser.py:944-949 | a medic has 1 health, never fires, enters at an edge, and flies in the air band |
| `Spawner.Spawn` | loser.py:920-950 | spawning only appends enemies and only touches the enemies, counters, timers and cursor; the spawned counter rises only when the shared gate (quota, no boss, fewer than 5 regular enemies) was open, by at most 1 on level 1 and 2 on level 2; nothing spawns while the boss is active; no boss is spawned here |
| `Spawner.SpawnWhenDue` | loser.py:920-950 | while the gate is open (quota not reached, no boss, fewer than 5 regular enemies), an air raider is appended once more than 2000 ms have passed since the last, then, from level 2, a tank once more than 20000 ms have passed; then, with no boss active, a medic once more than 19000 ms have passed; each timer is reset to now exactly when its enemy spawns and is otherwise unchanged; the spawned counter counts the air raider and the tank; they are appended in that order, using 4, 1 and 3 random draws |
| `Spawner.SpawnCensus` | loser.py:920-950 | the spawned counter rises by exactly the number of regular enemies added, and the boss count is unchanged |
| `Spawner.SpawnBounds` | loser.py:920-941 | the quota and the on-screen cap are kept, up to an overshoot of one on level 2 |
| `Spawner.QuotaOvershoot` | loser.py:922-941 | on level 2, with one enemy left to spawn and both timers due, the spawned counter ends one past the quota |
| `BossFight.AttackCycle` | loser.py:972-979 | the attack modes cycle with period three, visiting each mode |
| `BossFight.Summon` | loser.py:957-964 | the boss is appended, with the level's boss health and timer reset to now, exactly when the destroyed counter has reached the quota and no boss is active; otherwise nothing changes |
| `BossFight.SummonCensus` | loser.py:957-964 | summoning keeps the regular count and adds one boss exactly when it switches the boss on |
| `BossFight.Assault` | loser.py:968-992 | nothing happens unless the boss is active and an enemy exists; the mode advances and the timer resets exactly past the cooldown; exactly one warning is added, on the bombs-to-laser switch; a beam is added only when no warning and no beam remain; at most one shot is added, with positive damage; only the first enemy's last fire time changes |
| `BossFight.BossFires` | loser.py:983-992 | in bullets mode more than 200 ms after its last shot the boss fires a straight shot of damage 10 from its position; in bombs mode after more than 1000 ms it drops a boss bomb; exactly then a shot is added and its last fire time becomes now; a beam is added exactly in laser mode with no warning left and no beam before |
| `BossFight.SingleBeam` | loser.py:991-992 | there is never more than one beam |
| `Combat.FirstOverlap` | loser.py:1017-1021 | the index found is that of the first enemy, in list order, whose box holds the bullet |
| `Combat.FirstMatchWins` | loser.py:1057-1078 | a standard bullet damages only the first overlapping enemy; it is removed with its reward exactly when its health reaches zero, and otherwise replaced by its damaged self |
| `Combat.MedicPenalty` | loser.py:1023-1030 | hitting a medic costs 25 score and 20 coins, drops nothing, uses no roll, leaves the destroyed counter alone and removes the medic whatever the weapon; the pass crashes exactly when the bullet also overlaps a later enemy |
| `Combat.OverlapFound` | loser.py:1017-1021 | the scan finds an enemy exactly when the bullet overlaps some enemy |
| `Combat.LaterOverlap` | loser.py:1017-1030 | the scan after index j finds an enemy exactly when the bullet overlaps an enemy after j |
| `Combat.BombReach` | loser.py:1032-1056 | a bomb leaves exactly the enemies it does not kill, damaged if within the radius, and uses two rolls per kill |
| `Combat.SweepSurvivors` | loser.py:1034-1054 | the blast loop keeps exactly the survivors, in order, and uses two rolls per kill |
| `Combat.SweepAccounts` | loser.py:1044-1050 | each regular enemy killed by a blast adds one to the destroyed counter, and a boss kill adds none |
| `Combat.SweepKinds` | loser.py:1038 | a blast never removes a medic and adds no boss |
| `Combat.StrikeConserves` | loser.py:1016-1078 | one bullet keeps destroyed + regular enemies alive, so a regular kill counts and a boss kill does not; it never adds a boss |
| `Combat.VolleyConserves` | loser.py:1016-1078 | the whole pass keeps destroyed + regular alive, adds no boss and no enemy, and keeps only bullets it was given |
| `Combat.Incoming` | loser.py:1081-1098 | the enemy-bullet pass changes only health and the shield, never raises health, and keeps the player sound |
| `Combat.IncomingRemovesHits` | loser.py:1081-1098 | every bullet in the player's box is removed and every other one kept, in order |
| `Combat.IncomingUnshielded` | loser.py:1094-1095 | without a shield, health drops by exactly the total damage of the hits, unclamped |
| `Combat.IncomingShielded` | loser.py:1087-1092 | a shield with more charge than the total damage absorbs it all: health unchanged, meter lowered by the total |
| `Combat.Scorch` | loser.py:1101-1117 | the laser pass marks exactly the beams whose end lies in the player's box, changes only health and the shield, and keeps the player sound |
| `Combat.ScorchOnce` | loser.py:1103-1107 | a beam damages at most once: a second pass over what the first left changes nothing |
| `Combat.ScorchUnshielded` | loser.py:1109-1117 | without a shield, each beam hitting for the first time costs exactly 10 health |
| `Combat.Gather` | loser.py:1120-1130 | pickups change only coins and the shield meter, and keep the player sound |
| `Combat.GatherSpec` | loser.py:1120-1130 | every drop within a player width is removed and every other kept; each coin adds 10; shield packs add 20 each, capped at 100 |
| `Cleanup.Filter` | loser.py:1133-1139 | a comprehension keeps exactly the elements that satisfy its condition; one element is kept exactly when it satisfies it |
| `Cleanup.FilterAppend` | loser.py:1133-1139 | a comprehension keeps the order: over a concatenation it gives the kept elements of the first part, then those of the second |
| `Cleanup.Wrap` | loser.py:1153-1156 | an enemy beyond the left edge reappears one width beyond the right, and the reverse; only x changes; an on-screen enemy is untouched; afterwards it is on screen |
| `Cleanup.Recycle` | loser.py:1144-1160 | every enemy is either kept or counted as a retired medic; afterwards only the boss can be off screen |
| `Cleanup.RecycleSpec` | loser.py:1144-1160 | the recycled list is, in order, every enemy except the medics off screen, the boss as it is and any other wrapped; the count is the number of medics off screen |
| `Cleanup.RecycleLast` | loser.py:1146-1157 | one round of the loop on the last enemy: a medic off screen is counted, any other enemy is appended as it returns |
| `Cleanup.RecycleStep` | loser.py:1144-1160 | the step of `RecycleSpec` for one more enemy at the back |
| `Cleanup.KeptStep` | loser.py:1144-1157 | the enemies that stay, for a list with one more enemy at the back |
| `Cleanup.ReturnedLast` | loser.py:1151-1157 | returning enemies to the screen one by one keeps their order |
| `Cleanup.RecycleCount` | loser.py:1147-1150 | recycling keeps the count of every kind but medics, and the number of medics paid for is exactly the drop in their count |
| `Cleanup.RecycleCensus` | loser.py:1144-1160 | the census after recycling, for every kind at once; the regular count is unchanged |
| `Cleanup.BossStays` | loser.py:1151 | recycling never wraps or removes the boss |
| `Cleanup.RecycleSettled` | loser.py:1144-1160 | a second recycling pass changes nothing and pays for no medic |
| `Cleanup.Judge` | loser.py:1164-1168 | lost exactly when health is at most 0, even if the boss died in the same tick; won exactly when the player is alive, the boss was summoned and no enemy is left |
| `Cleanup.Tidy` | loser.py:1133-1160 | each of the five comprehensions is `Filter` of the old list with its condition, so out-of-bounds bullets of both sides, done beams and warnings, and drops 5000 ms old or more are removed and the rest kept, in order and with duplicates; enemies are recycled; 15 coins are added per passing medic; no other field changes |
| `World.FireRate` | loser.py:910-911 | the player's fire interval is the standard 200 ms, halved by rapid fire |
| `World.Trigger` | loser.py:912-918 | a shot is appended exactly when the button is held and more than the fire interval has passed; the shot is the player's weapon from the tank, and the last fire time becomes now; otherwise nothing changes; no other field ever changes |
| `World.PlayerCooldown` | loser.py:912-918 | after a shot, holding the button fires nothing more until more than the fire interval has passed |
| `World.ShotWeapon` | loser.py:913-916 | with the bomb gun the shot is a bomb of damage 50 whose hit leaves only the survivors of its blast; without it, a bullet of damage 10 whose hit damages only the first enemy it overlaps |
| `World.Patrol` | loser.py:998-1002 | the loop keeps the list's length and adds at most one shot per enemy |
| `World.PatrolMoves` | loser.py:998-1002 | each enemy afterwards is that enemy moved and, if it fired, with its fire time reset; kinds are kept; every shot does damage |
| `World.PatrolShots` | loser.py:998-1002 | the shots are exactly those of the enemies that fire, in enemy order: the shot of enemy i comes after the shots of the enemies before it |
| `World.PatrolLast` | loser.py:998-1002 | one more round of the loop, for the enemy at the back |
| `World.FlyAll` | loser.py:995-1005 | every bullet takes one `Fly` step, in order, keeping its damage; none is added or dropped |
| `World.StartInv` | loser.py:869-891 | the start of a run satisfies the run invariant |
| `World.ArmedInv` | loser.py:898-992 | firing, spawning and the boss's turn keep the invariant |
| `World.MovedInv` | loser.py:995-1013 | the update block keeps the invariant |
| `World.CollideInv` | loser.py:1016-1130 | the collision passes keep the invariant |
| `World.TidyInv` | loser.py:1133-1160 | cleanup and recycling keep the invariant |
| `World.TickInv` | loser.py:894-1168 | every tick keeps the invariant: sound player; destroyed + regular alive = spawned; quota and cap overshoot at most one; at most one boss, none before it is summoned, and summoned only after the quota; at most one beam |
| `World.TickOutcome` | loser.py:1164-1168 | a level is won only with the boss summoned, the quota of kills met, no enemy left and the player alive; it is lost exactly when health is at most 0 |
| `Sessions.Boot` | loser.py:25-31 | at start only level 1 is open and selectable, and the boss opens with bullets |
| `Sessions.Unlock` | loser.py:815-818 | unlocking never closes a level and opens at most the next one; the next level is open afterwards exactly when it already was or the level was won |
| `Sessions.ConcludeSelectable` | loser.py:786-791 | after a run, the level 2 button is offered exactly when it already was or level 1 has just been won; no level but 1 and 2 is ever offered; the boss keeps the attack mode the run ended in |
| `Sessions.FirstWin` | loser.py:786-818 | from a fresh start, winning level 1 opens level 2 and losing it does not |
| `Sessions.LevelTwoUnlocked` | loser.py:815-818 | level 2 is unlocked exactly once level 1 has been won |
| `Sessions.ReplayGrows` | loser.py:818 | unlocking never closes a level |
| `Arcade.Game.constructor` | loser.py:869-891 | the game object starts in the state `Start` describes, which satisfies the invariant |
| `Arcade.Game.Frame` | loser.py:894-1168 | one iteration in place returns the outcome of `World.Tick`; unless it crashed, it ends in `World.Tick`'s state and keeps the invariant |
| `Arcade.Game.Arm` | loser.py:898-992 | the input, firing, spawning and boss blocks end in `Armed` of the old state |
| `Arcade.Game.Prime` | loser.py:898-918 | shop, player update and firing end in `Trigger` of `Shopped` |
| `Arcade.Game.VisitShop` | loser.py:899-901 | the shop visit ends in `Shop` of the old player |
| `Arcade.Game.PullTrigger` | loser.py:909-918 | the firing block ends in `Trigger` of the old state |
| `Arcade.Game.Populate` | loser.py:920-964 | spawning and summoning end in `Summon` of `Spawn` |
| `Arcade.Game.SpawnEnemies` | loser.py:920-950 | the spawning block ends in `Spawn` of the old state |
| `Arcade.Game.AddAirRaider` | loser.py:925-934 | the air spawn appends `AirRaider`, resets its timer and counts it |
| `Arcade.Game.AddGroundRaider` | loser.py:936-941 | the tank spawn appends `GroundRaider`, resets its timer and counts it |
| `Arcade.Game.AddMedevac` | loser.py:944-950 | the medic spawn appends `Medevac` and resets its timer, without counting it |
| `Arcade.Game.SummonBoss` | loser.py:957-964 | the boss block ends in `Summon` of the old state |
| `Arcade.Game.BossTurn` | loser.py:968-992 | the boss state machine ends in `Assault` of the old state |
| `Arcade.Game.BossMoves` | loser.py:968-992 | each field the state machine writes ends as `Assault` says |
| `Arcade.Game.AdvanceAll` | loser.py:995-1013 | the update block ends in `Advance` of the old state |
| `Arcade.Game.FlyBullets` | loser.py:995-996 | the player's bullets each take one `Fly` step |
| `Arcade.Game.PatrolEnemies` | loser.py:998-1002 | the enemy loop ends in `Marched` of the old state |
| `Arcade.Game.MarchAll` | loser.py:998-1002 | the enemy loop, in place, leaves the enemies and the appended shots that `Patrol` gives |
| `Arcade.Game.FlyEnemyBullets` | loser.py:1004-1005 | the enemy bullets each take one `Fly` step |
| `Arcade.Game.SinkDrops` | loser.py:1007-1008 | the drops each take one `Sink` step |
| `Arcade.Game.AgeBeams` | loser.py:1010-1013 | beams and warnings are marked done as `LaserAged` and `WarningAged` say |
| `Arcade.Game.Collisions` | loser.py:1016-1130 | the four passes crash exactly when `Collide` does, and otherwise end in its state |
| `Arcade.Game.ShootEnemies` | loser.py:1016-1078 | the player-bullet pass crashes exactly when `Volley` raises, and otherwise settles its tally and surviving bullets |
| `Arcade.Game.ScanBullets` | loser.py:1016-1078 | the outer loop over the bullets ends in `Volley`'s tally and surviving bullets, or crashes when it raises |
| `Arcade.Game.StrikeWith` | loser.py:1017-1078 | one bullet's inner loop misses, hits or crashes exactly as `Strike1` says |
| `Arcade.Game.FirstHit` | loser.py:1017-1021 | the scan returns the first enemy from the given index on that the bullet overlaps |
| `Arcade.Game.HitOne` | loser.py:1057-1075 | a standard hit, in place, ends as `Direct` says |
| `Arcade.Game.BlastAt` | loser.py:1032-1056 | the blast loop, in place, ends as `Blast` says |
| `Arcade.Game.BlastOne` | loser.py:1035-1054 | one enemy in the blast radius is scorched, and removed with its reward if it dies |
| `Arcade.Game.Award` | loser.py:1059-1073 | a kill's rolls, drops, counter, score and coins are as `Reward` says |
| `Arcade.Game.TakeHits` | loser.py:1081-1098 | the enemy-bullet pass ends in `Dodged` of the old state |
| `Arcade.Game.ScanShots` | loser.py:1081-1098 | the enemy-bullet loop, in place, leaves the player and the bullets that `Incoming` gives |
| `Arcade.Game.TakeOne` | loser.py:1082-1098 | a bullet in the player's box is absorbed as `Shot` says and removed; any other bullet is kept and the player untouched |
| `Arcade.Game.BurnPlayer` | loser.py:1101-1117 | the laser pass ends in `Burnt` of the old state |
| `Arcade.Game.ScanBeams` | loser.py:1101-1117 | the laser loop, in place, leaves the player and the beams that `Scorch` gives |
| `Arcade.Game.BurnOne` | loser.py:1103-1117 | a beam that has not hit and ends in the player's box is marked and burns the player; any other beam changes nothing |
| `Arcade.Game.PickUp` | loser.py:1120-1130 | the pickup pass ends in `Gathered` of the old state |
| `Arcade.Game.ScanDrops` | loser.py:1120-1130 | the pickup loop, in place, leaves the player and the drops that `Gather` gives |
| `Arcade.Game.CleanUp` | loser.py:1133-1160 | the cleanup block ends in `Tidy` of the old state |
| `Arcade.Game.Prune` | loser.py:1133-1139 | the comprehensions end in `Pruned` of the old state |
| `Arcade.Game.PruneShots` | loser.py:1133-1134 | both bullet lists keep only what is strictly inside the screen |
| `Arcade.Game.PruneBeams` | loser.py:1135-1136 | beams and warnings keep only those not done |
| `Arcade.Game.PruneDrops` | loser.py:1139 | drops keep only those younger than the despawn time |
| `Arcade.Game.Retire` | loser.py:1144-1160 | the recycling block ends in `Recycled` of the old state |
| `Arcade.Game.RecycleEnemies` | loser.py:1144-1160 | the recycling loop leaves the list `Recycle` gives and pays 15 coins per retired medic |
| `Arcade.Game.Verdict` | loser.py:1164-1168 | the terminal checks return `Judge` of the state |

## Left out

- Drawing and the user interface. This covers every `draw` method, `draw_text`, `button`, the HUD and the boss bar, the menus, the settings screen and the shop screen's event loop. None of them changes a game rule. The shop is modelled as the sequence of buttons pressed during a visit.
- Pygame set-up, image and sound loading, music and sound effects. These are I/O.
- Explosions. Nothing in the rules reads them.
- Cannon aiming and the angle smoothing of `Player.update`, and the velocities computed with `atan2`, `cos` and `sin`. These are floating-point trigonometry. They are replaced by the `Aim` parameter and by the shot velocity in the controls.
- The clock and frame pacing. `now` is one clock reading per tick; the source reads the clock several times within a tick.
- The beams' and warnings' `done` flags are set by their `draw` calls. The model sets them at the same point of the tick, by elapsed time (`LaserAged`, `WarningAged`).
- Randomness as probability. Each `random.random()` outcome is a value from a stream supplied by the caller, taken in the source's order.
- `Arcade.Game.Frame`: when a bullet is removed twice, the source raises `ValueError`, which ends the program. The contract then states only the `Crashed` outcome, not the state left behind.
- `Cleanup.Recycle`: the recycling loop first marks passing medics and removes them after the loop. The model builds the survivor list in one pass, which gives the same list because each medic is removed once.
- `Player.is_hit_by_laser` is reset every frame and never read, so it is not modelled.
- Quitting the game from inside a run (`pygame.QUIT`) exits the process. It is not modelled.
