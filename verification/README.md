# squaretato rules in Dafny

A model of the discrete rules of the browser arcade game *squaretato*, with
proofs of what those rules promise. The player survives 50-second waves in a
walled arena, kills enemies with up to four auto-firing weapons, collects
coins, and spends them between waves on weapons, items and permanent stat
upgrades. Dying wipes all progress.

The model follows the game's own structure, one Dafny module per source file:

- `Common` (common.dfy): shared pieces. These are `Option`, a random roll in
  `[0, 1)`, the stream of rolls that stands for `Math.random`, 2-D vectors,
  `Min`/`Max`, integer powers, and an uninterpreted record of
  `sin`/`cos`/`atan2`/`sqrt`.
- `Entity` (entity.dfy): the base entity, which moves, takes damage and
  collides.
- `Balance` (balance.dfy): the `BALANCE` tables and the wave formulas. These
  cover enemy stats per wave, the enemy mix of each wave, the weighted choice
  of an enemy type, the spawn rate and the money value.
- `Projectile`, `Enemy`, `Pickup`, `Player`: the entities' per-frame rules.
  They cover homing retargeting, the auto-aim gate, the boomerang turn,
  lifetimes, wall bounces, the enemy behaviour timers, despawning, the
  player's key-driven velocity and the arena clamp.
- `Spawn` (spawn.dfy): the spawn scheduler.
- `Weapons` (weapons.dfy): the weapon system. It covers level scaling and the
  specials unlocked at fixed levels, cooldowns, what each weapon fires, the
  burst rifle's state machine, chain lightning's greedy search, and
  `createWeapon`.
- `GameState` (gamestate.dfy): the persistent progress record and the
  current screen.
- `Game` (game.dfy): one round. It covers the start, pause, one frame of
  `update` and the round's completion or loss. It also covers the frame
  clamp of the animation loop.
- `Shop`, `Character`, `Upgrade`: the money logic of the shop, of the
  permanent stat upgrades and of the end-of-wave upgrade choice. `Upgrade`
  also models the word wrapping of its descriptions.

**Conventions:**
- Money, levels, stacks and counters are `int`; positions, speeds, health
  and the balance formulas are `real`.
- JavaScript's doubles are taken as exact reals, so identities such as
  "every wave's enemy mix sums to 1" hold exactly.
- Every call of `Math.random()` is one roll taken from an explicit stream. A
  frame records how many rolls it used.
- A comparison of a square root with a bound is stated on squares.
- Enemy identity (a homing target, a piercing shot's hit set) is an `id`
  field.
- Shop ownership flags are computed the way `updateOwnership` computes them,
  as the predicate `Shop.Owned`, which guards `Shop.Click`.

## Model

| member | source | states |
|---|---|---|
| Entity.NewBody | game/src/entities/Entity.js:2-9 | a new entity stands still at the given point, size 20, with 100 of 100 health and alive |
| Entity.Move | game/src/entities/Entity.js:11-14 | the position advances by velocity times elapsed time; size, health and liveness are untouched |
| Entity.MoveComposes | game/src/entities/Entity.js:11-14 | two moves at one velocity equal one move over the summed time, and a zero-time move changes nothing |
| Entity.TakeDamage | game/src/entities/Entity.js:16-22 | health falls by the amount; reaching 0 or below pins it to 0 and kills; a dead body never revives |
| Entity.DamageAccumulates | game/src/entities/Entity.js:16-22 | two hits in a row leave the same body as one hit of their sum |
| Entity.DeadStaysDead | game/src/entities/Entity.js:16-22 | no sequence of hits brings a dead body back |
| Entity.HealthStaysInRange | game/src/entities/Entity.js:16-22 | non-negative hits keep health between 0 and its starting value |
| Entity.CollidesSymmetric | game/src/entities/Entity.js:28-33 | collision is symmetric and holds exactly when the centre distance is below the mean size |
| Entity.GetBounds | game/src/entities/Entity.js:35-42 | the box is centred on the position with side equal to the size |
| Entity.CollisionImpliesBoundsOverlap | game/src/entities/Entity.js:28-42 | two colliding entities have overlapping boxes |
| Entity.Closest | game/src/entities/Projectile.js:85-101 | the nearest eligible entry, the earliest on a tie, and none exactly when no entry is eligible |
| GameState.LevelOf | game/src/game.js:235 | a weapon's level reads as stored, and as 1 when absent or zero |
| GameState.Fresh | game/src/systems/GameState.js:28-58 | a new character has level 1 unlocked, no money, the base stats, every counter at 0, only a level-1 pistol, no items |
| GameState.Load | game/src/systems/GameState.js:12-27 | nothing saved gives a new mouse-controlled character; a save is kept as is, except that a save without weapon levels gets every owned weapon at level 1 |
| GameState.ResetProgress | game/src/systems/GameState.js:65-98 | the wipe equals a new character except that the control scheme is kept |
| GameState.ResetForgetsEverything | game/src/systems/GameState.js:65-98 | after a reset no money, purchases, stacks, items or extra weapons survive, and resetting twice is resetting once |
| GameState.CompleteLevel | game/src/systems/GameState.js:100-107 | the earned money is banked; the unlocked count moves to the next level only when the completed level is at least the unlocked one and below 30; nothing else changes |
| GameState.UnlockIsHighWaterMark | game/src/systems/GameState.js:100-107 | the unlocked count becomes the larger of itself and the completed level plus one (levels from 30 up change nothing), never falls, and never passes 30 |
| GameState.UnlockedStaysInRange | game/src/systems/GameState.js:100-107 | over any sequence of completions the unlocked count stays within 1 to 30 and never decreases |
| GameState.NewSession | game/src/systems/GameState.js:5-10 | a new session shows the menu at level 1 with the loaded record |
| GameState.SetState | game/src/systems/GameState.js:109-111 | only the current screen changes |
| GameState.GetReturnsLastSet | game/src/systems/GameState.js:109-115 | reading the screen gives the last one set, a second set overrides the first, and a new session starts at the menu |
| Character.UpgradeValue | game/src/config/balance.js:245-300 | every stat upgrade adds a positive amount |
| Character.UpgradeCost | game/src/ui/CharacterScreen.js:114-115 | the price of the next purchase is never negative |
| Character.UpgradeCostDoubles | game/src/ui/CharacterScreen.js:114-115 | from n purchases the price is 50 times 2 to the n, so each purchase doubles the next price |
| Character.GetUpgrades | game/src/ui/CharacterScreen.js:101-140 | one entry per stat in table order, each carrying its own purchase count, its price for that count and its value |
| Character.PurchaseUpgrade | game/src/ui/CharacterScreen.js:142-150 | with enough money the price is paid, the stat rises by the value and its counter by one; otherwise nothing changes; other stats and counters never change |
| Character.Buy | game/src/ui/CharacterScreen.js:92-99 | a click on stat k buys k's own listed entry at the price shown from k's counter: unaffordable leaves the data unchanged, otherwise money falls by that price, the stat rises by its value and k's counter by one; non-negative money never goes below zero |
| Character.BuyTimesCost | game/src/ui/CharacterScreen.js:101-150 | buying a stat n times from none costs 50 times (2 to the n minus 1) and adds n times its value |
| Character.Activate | game/src/ui/CharacterScreen.js:46-57 | the list opens at the top, and it scrolls only when the nine entries overflow the visible height |
| Character.Wheel | game/src/ui/CharacterScreen.js:152-163 | a downward event moves 30 towards the end and an upward one 30 towards the top, clamped to the range |
| Character.WheelStaysInRange | game/src/ui/CharacterScreen.js:152-163 | from inside the range, a wheel event stays inside, and the opening offset is inside |
| Character.WheelDownThenUp | game/src/ui/CharacterScreen.js:152-163 | away from the ends, a step down followed by a step up returns to the same offset |
| Character.WheelAllStaysInRange | game/src/ui/CharacterScreen.js:152-163 | any run of wheel events keeps the offset within range and the range itself fixed |
| Balance.GetEnemyStats | game/src/config/balance.js:774-784 | the drop chance and money value come straight from the type's table entry, whatever the wave |
| Balance.StatsGrowPerWave | game/src/config/balance.js:774-784 | one more wave adds exactly the per-wave growth to health, speed, damage and experience, and leaves the money fields alone |
| Balance.StatsAtFirstWave | game/src/config/balance.js:774-784 | at wave 1 every stat equals its base value |
| Balance.StatsNonDecreasing | game/src/config/balance.js:774-784 | a later wave never gives an enemy less health, speed, damage or experience |
| Balance.PerWaveGrowthNonNegative | game/src/config/balance.js:35-168 | every enemy type's per-wave growth is non-negative |
| Balance.UnlistedIsBasic | game/src/config/balance.js:775 | an unknown type name reads the basic entry |
| Balance.BaseDamageKillsFirstWaveBasic | game/src/config/balance.js:10 | one shot at base damage kills a first-wave basic enemy |
| Balance.GetWaveDistribution | game/src/config/balance.js:787-789 | waves 1 to 30 read their own table row and every other wave reads the default row |
| Balance.SelectFromFirstReaching | game/src/config/balance.js:797-804 | the scan returns the first type whose running total reaches the roll, or basic when none does |
| Balance.SelectIsFirstReaching | game/src/config/balance.js:792-805 | the chosen type is the first in table order whose cumulative weight reaches the roll |
| Balance.SelectWithinTotalIsListed | game/src/config/balance.js:797-804 | a roll no larger than the total weight always picks a listed entry |
| Balance.DistributionSumsToOne | game/src/config/balance.js:171-211 | every wave's weights add up to exactly 1 |
| Balance.SelectedTypeIsListed | game/src/config/balance.js:792-805 | every roll in [0, 1) picks a type listed for that wave, so the basic fallback is never reached |
| Balance.BossOnlyOnBossWaves | game/src/config/balance.js:171-211 | the boss has positive weight exactly on waves 10, 15, 20, 25 and 30 |
| Balance.Wave10RollAtNinetyNinePercentPicksWave | game/src/config/balance.js:182 | on wave 10 a roll of 0.99 lands on the wave enemy, just before the boss |
| Balance.GetSpawnRate | game/src/config/balance.js:808-812 | the rate never exceeds the 27 per second cap, and from wave 1 at a non-negative time it is at least the base rate |
| Balance.SpawnRateMonotone | game/src/config/balance.js:808-812 | a later wave or a later time never lowers the spawn rate |
| Balance.GetMoneyValue | game/src/config/balance.js:815-817 | from wave 1 a coin is worth at least the base drop value |
| Balance.MoneyValueMonotone | game/src/config/balance.js:815-817 | a later wave never makes coins worth less |
| Projectile.NewProjectile | game/src/entities/Projectile.js:5-73 | a new shot is alive at the given point with the configured size and speed, damage 25, five seconds of life, no bounces, no special effects, an empty hit set and a 25-pixel auto-aim radius |
| Projectile.WrapAngle | game/src/entities/Projectile.js:112-114 | the wrapped angle lies in [-pi, pi] and an angle already there is unchanged |
| Projectile.Retarget | game/src/entities/Projectile.js:79-102 | a living target is kept; otherwise the nearest living enemy is chosen, and there is none exactly when no enemy lives |
| Projectile.Aim | game/src/entities/Projectile.js:77-151 | a living homing shot retargets; a shot that neither homes nor auto-aims is untouched, as is an auto-aiming one with no living enemy inside its radius; steering changes only the velocity and the target |
| Projectile.AutoAimIsStrict | game/src/entities/Projectile.js:124-139 | an enemy is an auto-aim candidate exactly when it is alive and strictly inside the radius |
| Projectile.BoomerangStep | game/src/entities/Projectile.js:191-217 | a boomerang adds the distance flown; it turns back once that reaches its range, forgetting whom it hit at that moment, and is caught (dies) when returning within 20 pixels of its start; other shots are untouched |
| Projectile.WaveStep | game/src/entities/Projectile.js:220-228 | a wave shot adds the distance flown and changes only its velocity; other shots are untouched |
| Projectile.WallBounce | game/src/entities/Projectile.js:239-252 | each wall touched flips that velocity component, clamps that coordinate inside the canvas and counts one bounce |
| Projectile.AfterMove | game/src/entities/Projectile.js:230-263 | the lifetime falls by the frame time and an expired shot dies unmoved; a shot with bounces left bounces; otherwise it dies when more than 50 pixels outside the canvas |
| Projectile.UpdateKeeps | game/src/entities/Projectile.js:75-264 | an update never revives a shot, never un-returns a boomerang, never grows the hit set, never lowers the bounce count, and lets the count pass the maximum by at most one |
| Projectile.UpdateRunsLifetime | game/src/entities/Projectile.js:200-236 | a caught boomerang dies with its lifetime unspent; any other shot loses the frame time, and one with no time left is dead |
| Projectile.BouncingStaysInside | game/src/entities/Projectile.js:239-252 | a shot with bounces left ends the frame inside the canvas |
| Projectile.CornerOvershoot | game/src/entities/Projectile.js:239-252 | a shot with one bounce left that meets a corner counts two bounces, one past its maximum |
| Enemy.NewEnemy | game/src/entities/Enemy.js:7-63 | a new enemy is alive and still at the given point with its type's size, a hitbox 10% larger, and full health taken from that wave's stats; its per-type fields are set up |
| Enemy.HeadingHeads | game/src/entities/Enemy.js:284-291 | the normalised heading towards a non-zero offset points along it with exactly the given speed |
| Enemy.EdgeOf | game/src/entities/Enemy.js:66 | the edge drawn is one of the four sides |
| Enemy.SpawnFromEdge | game/src/entities/Enemy.js:65-231 | an edge spawn is alive with the requested type and wave; trackers start still, tanks move along their wandering direction, and exactly the non-tracker, non-wave, non-zoomer types bounce off walls |
| Enemy.EdgeSpawnStartsOutside | game/src/entities/Enemy.js:70-87 | every edge spawn starts outside the play area |
| Enemy.EdgeSpawnBands | game/src/entities/Enemy.js:114-187 | wave enemies enter through the middle 60% of their side and zoomers through the middle 40% |
| Enemy.SpawnInside | game/src/entities/Enemy.js:233-240 | an inside spawn is a fresh enemy at least 30 pixels from every edge of the play area |
| Enemy.HitboxCoversBody | game/src/entities/Enemy.js:242-248 | whatever touches an enemy's body touches its larger hitbox |
| Enemy.WallBounce | game/src/entities/Enemy.js:473-506 | a wall-bouncing enemy inside the area reverses the component of each wall it touches and is clamped back inside, below the UI bar; a wandering tank's direction follows; other enemies are untouched |
| Enemy.TrackerStep | game/src/entities/Enemy.js:280-292 | with a living player the tracker heads straight at them at its speed; otherwise nothing changes |
| Enemy.TankSteer | game/src/entities/Enemy.js:294-325 | a tank within 150 pixels of a living player charges at one and a half times its speed; otherwise it follows its wandering direction and draws a new one, with a 1 to 3 second timer, when the timer runs out |
| Enemy.EnemyShot | game/src/entities/Enemy.js:348-357 | an enemy shot starts at the shooter with the type's damage, size, speed and bounce limit |
| Enemy.Tick | game/src/entities/Enemy.js:337-340 | a cooldown fires exactly when it runs out, and then restarts at the full cooldown |
| Enemy.ShooterStep | game/src/entities/Enemy.js:331-362 | a shooter bounces off walls and, against a living player, fires one shot each time its timer runs out |
| Enemy.WaveStep | game/src/entities/Enemy.js:368-401 | a wave enemy moves only vertically and dies once more than 50 pixels off screen |
| Enemy.ZoomerStep | game/src/entities/Enemy.js:403-410 | a zoomer changes nothing but dies once more than 50 pixels off screen |
| Enemy.BossBrood | game/src/entities/Enemy.js:451-468 | the boss releases exactly three living wave enemies of its own wave, with consecutive new identities |
| Enemy.BossStep | game/src/entities/Enemy.js:412-471 | a boss bounces off walls and, against a living player, fires on one timer and releases three wave enemies on another; the brood is built around the boss after its wall bounce |
| Enemy.BroodSurroundsBouncedBoss | game/src/entities/Enemy.js:414-457 | each brood member sits `size + 20` from the boss's position after the wall bounce, in the direction its roll gives |
| Enemy.Update | game/src/entities/Enemy.js:250-278 | an update never heals, resizes or revives an enemy, keeps it well formed, and spawns at most three new wave enemies with fresh identities |
| Enemy.TankAggroIsDistance | game/src/entities/Enemy.js:299-303 | a tank sees the player exactly when the player is alive and at most 150 pixels away |
| Enemy.WanderingTankFollowsDirection | game/src/entities/Enemy.js:314-325 | after an update a tank that is not charging moves along its wandering direction |
| Enemy.ShooterFiresFirstFrame | game/src/entities/Enemy.js:41-47 | a new shooter fires on its first frame against a living player and restarts its 1.5 second timer |
| Enemy.BossReleasesThree | game/src/entities/Enemy.js:444-468 | when its spawn timer runs out the boss releases three wave enemies of its wave and restarts a 3 second timer |
| Enemy.DriftersDieOffscreen | game/src/entities/Enemy.js:397-410 | zoomers and wave enemies beyond the 50-pixel margin are dead after the update |
| Pickup.NewPickup | game/src/entities/Pickup.js:5-11 | a new pickup is alive at the given point, 16 pixels across, lives 10 seconds, and a coin is worth the base money value while anything else is worth 0 |
| Pickup.Update | game/src/entities/Pickup.js:13-18 | the lifetime falls by the frame time and the pickup dies when it reaches 0; position, kind and value stay |
| Pickup.LifetimeRunsDown | game/src/entities/Pickup.js:13-18 | over any run of frames the lifetime falls by their total, and the pickup is alive exactly when that total is below its starting lifetime |
| Player.NewPlayer | game/src/entities/Player.js:5-12 | a new player stands still at the given point with the configured size, speed and full health, aiming at angle 0 |
| Player.Update | game/src/entities/Player.js:14-53 | the velocity is the one the held keys give, the aim stays when there is no mouse position, and the player ends the frame inside the play area |
| Player.KeyVelocityRules | game/src/entities/Player.js:16-37 | no keys means standing still; right wins over left and down over up; a straight move has the full speed and a diagonal one scales each component by one over root two |
| Player.DiagonalFactorIsInverseRootTwo | game/src/entities/Player.js:34 | the diagonal factor squared is one half, to within 10 to the minus 15 |
| Player.StandingStillInsideIsStable | game/src/entities/Player.js:14-53 | with no keys and no mouse a player inside the area stays exactly where it is |
| Spawn.NewSpawner | game/src/systems/SpawnSystem.js:6-12 | a new spawner is for the given level with all three clocks at 0 |
| Spawn.DueIsOneInterval | game/src/systems/SpawnSystem.js:20-23 | a spawn is due exactly when the time since the last one covers one interval of the current rate |
| Spawn.Variation | game/src/systems/SpawnSystem.js:51-54 | a group member's amplitude and frequency factors lie in [0.9, 1.1) |
| Spawn.GroupMember | game/src/systems/SpawnSystem.js:38-62 | each group member is a living, trailing wave enemy of the spawner's level, with amplitude and frequency within 10% of the configured ones |
| Spawn.GroupFrom | game/src/systems/SpawnSystem.js:38-63 | the group holds one living trailing wave enemy per remaining member, with consecutive identities |
| Spawn.SpawnEnemy | game/src/systems/SpawnSystem.js:29-84 | the drawn type decides the batch: a wave draw gives 2 to 10 wave enemies, any other draw exactly one enemy of that type; all are alive, of the level, with consecutive new identities |
| Spawn.SinglesArePlaced | game/src/systems/SpawnSystem.js:67-76 | a tracker appears inside the play area away from its edges, and every other single type appears outside it |
| Spawn.Advance | game/src/systems/SpawnSystem.js:14-27 | all three clocks advance by the frame time, and the time since the last spawn restarts exactly when a spawn is due |
| Spawn.Update | game/src/systems/SpawnSystem.js:14-27 | a due spawn adds at least one and at most ten enemies and an undue one adds none; new enemies get fresh identities and the spawner's level |
| Spawn.Reset | game/src/systems/SpawnSystem.js:86-89 | a reset zeroes the time since the last spawn and the total time, and leaves the spawn timer |
| Spawn.ClocksStayValid | game/src/systems/SpawnSystem.js:14-27 | with non-negative frame times no clock goes negative, and the total time is the sum of the frames |
| Spawn.SpawnWithinBaseInterval | game/src/systems/SpawnSystem.js:14-27 | from level 1, once one base interval of 1.25 seconds has passed since the last spawn, the update spawns |
| Weapons.ParseId | game/src/systems/WeaponSystem.js:830-857 | a name parses to the weapon whose table key it is, and to nothing exactly when no weapon has that key |
| Weapons.NamesParse | game/src/systems/WeaponSystem.js:830-857 | every weapon's own key parses back to that weapon |
| Weapons.Config | game/src/config/balance.js:371-521 | every weapon's table entry has a positive cost, fire rate and damage multiplier and fires at least one projectile |
| Weapons.SpecialsAt | game/src/systems/WeaponSystem.js:51-87 | each special unlocks at its threshold level (piercing and spiral at 3, the explosive nova and fork at 4) and accuracy adds 5 pixels of auto-aim per level above 1 |
| Weapons.LevelledAt | game/src/systems/WeaponSystem.js:44-70 | each level above 1 adds the upgrade table's damage, projectiles and area; rockets become two at level 4; the shotgun's spread shrinks by 15% and the burst rifle's by 25% per level |
| Weapons.ExtraAt | game/src/systems/WeaponSystem.js:89-99 | ricochet bounces, chain jumps and range, and boomerang distance grow by their per-level upgrade |
| Weapons.NewWeapon | game/src/systems/WeaponSystem.js:32-108 | a new weapon starts ready to fire, at the table's base fire rate, with the levelled stats and specials of its level |
| Weapons.LevelScalingMonotone | game/src/systems/WeaponSystem.js:44-70 | level 1 has the table's values, and a higher level never lowers damage or projectile count nor widens spread |
| Weapons.SpecialsAreThresholds | game/src/systems/WeaponSystem.js:59-79 | the SMG pierces exactly from level 3, and rockets double, the nova explodes and lightning forks exactly from level 4; no other weapon pierces by level |
| Weapons.FireRateIgnoresLevel | game/src/systems/WeaponSystem.js:110-113 | a weapon's fire rate is its base rate times the player's, whatever its level |
| Weapons.GetDamage | game/src/systems/WeaponSystem.js:115-117 | the damage is the floor of player damage times the weapon's multiplier, but never below 1 |
| Weapons.WithItems | game/src/systems/WeaponSystem.js:187-195 | Bounce House sets the shot's bounce limit and Explosive Rounds make it explode with the given radius and a share of its damage; nothing else changes |
| Weapons.PistolShot | game/src/systems/WeaponSystem.js:169-207 | the pistol fires one non-piercing shot at full damage, with the item effects and the accuracy bonus added to its auto-aim radius |
| Weapons.Pellet | game/src/systems/WeaponSystem.js:220-244 | each pellet pierces, flies at 80% to 120% of base speed, gets half the Bounce House bounces and half the explosion radius |
| Weapons.Pellets | game/src/systems/WeaponSystem.js:216-257 | the shotgun fires one pellet per projectile, each with its own speed roll |
| Weapons.SmgShot | game/src/systems/WeaponSystem.js:266-309 | the SMG fires one 3-pixel bullet at full damage that pierces exactly when the weapon has reached piercing |
| Weapons.Rocket | game/src/systems/WeaponSystem.js:353-376 | a rocket homes on the given target, never bounces, and explodes for its full damage |
| Weapons.Rockets | game/src/systems/WeaponSystem.js:318-392 | one homing explosive rocket per projectile, each without a target exactly when no enemy is alive |
| Weapons.LaserShot | game/src/systems/WeaponSystem.js:403-425 | the laser fires a piercing shot that lives half a second |
| Weapons.RicochetShot | game/src/systems/WeaponSystem.js:434-454 | the ricochet fires a seeking shot with 7 bounces |
| Weapons.WaveShot | game/src/systems/WeaponSystem.js:466-482 | each wave-gun shot pierces and moves on a sine path |
| Weapons.BurstShot | game/src/systems/WeaponSystem.js:519-538 | a burst bullet carries full damage |
| Weapons.OrbitalShot | game/src/systems/WeaponSystem.js:555-575 | each orbital shot lives 2 seconds and bounces only with Bounce House |
| Weapons.NovaShot | game/src/systems/WeaponSystem.js:606-633 | each nova shot pierces and bounces only with Bounce House |
| Weapons.BoomerangShot | game/src/systems/WeaponSystem.js:762-787 | the boomerang flies out 200 pixels from the player's position, with nothing hit yet |
| Weapons.Hit | game/src/entities/Entity.js:16-22 | damaging one enemy of a list changes that enemy and no other |
| Weapons.ApplyFrame | game/src/systems/WeaponSystem.js:692-737 | the strikes keep every enemy's identity and place, and leave unstruck enemies unchanged |
| Weapons.RunStrikesLiving | game/src/systems/WeaponSystem.js:712-713 | every strike of a chain lands on a living enemy not struck before |
| Weapons.RunDamage | game/src/systems/WeaponSystem.js:728-729 | the k-th jump deals the first jump's damage times the decay to the k |
| Weapons.RunDistinct | game/src/systems/WeaponSystem.js:696-733 | a chain never strikes the same enemy twice |
| Weapons.RunJumpsAreShort | game/src/systems/WeaponSystem.js:710-723 | each jump goes to an enemy strictly within the chain range of the previous one |
| Weapons.Chain | game/src/systems/WeaponSystem.js:708-738 | the chain makes at most the allowed jumps, each to the nearest reachable enemy, and stops early only when none is reachable |
| Weapons.Bolt | game/src/systems/WeaponSystem.js:692-738 | a bolt strikes its first enemy and then at most three more |
| Weapons.ChainFire | game/src/systems/WeaponSystem.js:661-753 | the lightning strikes nothing exactly when no living enemy is within 300 pixels and 45 degrees of the aim; otherwise it starts at the nearest such enemy |
| Weapons.RunStrikes | game/src/systems/WeaponSystem.js:692-738 | a chain's strikes are distinct living enemies, with decaying damage and short jumps |
| Weapons.ChainStrikesOnce | game/src/systems/WeaponSystem.js:661-753 | one discharge strikes at most four enemies, each once |
| Weapons.ChainLeavesOthers | game/src/systems/WeaponSystem.js:661-753 | the discharge keeps the list's identities and positions and leaves unstruck enemies unchanged |
| Weapons.Fire | game/src/systems/WeaponSystem.js:141-143 | only chain lightning changes the enemies, all shots belong to the player, and the rocket launcher raises its error exactly when effects are on |
| Weapons.Trigger | game/src/systems/WeaponSystem.js:119-139 | a weapon that is not ready only counts down; a ready one fires and restarts at one over its fire rate, unless the rocket launcher's error stops it first |
| Weapons.BurstUpdate | game/src/systems/WeaponSystem.js:498-517 | a ready rifle starts a three-round burst and fires its first round; otherwise it fires one round exactly when the burst has rounds left and its timer ran out; each round restarts a 0.08 second gap |
| Weapons.Update | game/src/systems/WeaponSystem.js:119-139 | an update keeps the weapon's identity; only chain lightning touches enemies, and only the rocket launcher with effects raises |
| Weapons.BurstCountStaysInRange | game/src/systems/WeaponSystem.js:498-517 | the rounds left in a burst stay between 0 and 3 |
| Weapons.BurstShotsAreSpaced | game/src/systems/WeaponSystem.js:512-516 | right after a burst round, a frame shorter than the 0.08 second gap fires nothing |
| Weapons.ShotCounts | game/src/systems/WeaponSystem.js:164-823 | shotgun and rocket volleys have one shot per projectile, the wave gun 3, the orbital cannon 8, the nova 10, the burst rifle and chain lightning none through fire, and every other weapon 1 |
| Weapons.LevelledFieldsAreIgnored | game/src/systems/WeaponSystem.js:89-99 | the levelled ricochet bounces and boomerang distance set up here are never read: from level 2 the weapon holds more, yet its shots still get 7 bounces and 200 pixels |
| Weapons.ChainIgnoresLevel | game/src/systems/WeaponSystem.js:701-710 | chain lightning fires the same at every level, because it reads the table's jumps and range |
| Weapons.ItemsReachShots | game/src/systems/WeaponSystem.js:187-240 | with both items, a pistol shot gets the stacked bounces and the full explosion, a pellet half of each |
| Weapons.RocketLauncherRaises | game/src/systems/WeaponSystem.js:338-388 | with effects on, the launcher pushes all its rockets and then raises before its cooldown restarts, so it stays ready |
| Weapons.SystemUpdate | game/src/systems/WeaponSystem.js:21-28 | every weapon keeps its identity, nothing happens without enemies, and an error is raised only with effects on |
| Weapons.SystemKeepsEnemies | game/src/systems/WeaponSystem.js:21-28 | the system never adds, removes, reorders or moves enemies |
| Weapons.CreateWeapon | game/src/systems/WeaponSystem.js:826-858 | a known name builds that weapon and an unknown one a pistol, at the given level |
| Weapons.CreateWeaponByName | game/src/systems/WeaponSystem.js:826-858 | each weapon's key builds that weapon, and any other name builds a pistol |
| Shop.ItemNamesDistinct | game/src/config/balance.js:523-720 | no two items share a table key |
| Shop.StackMultiplier | game/src/ui/ShopScreen.js:265-278 | the price growth per stack is 1.8 up to a base cost of 10, 2 up to 200, 2.5 from 200, and at least 2 for Bounce House |
| Shop.Cost | game/src/ui/ShopScreen.js:256-284 | weapons and non-stackable items cost their table price, and so does the first stack of a stackable item |
| Shop.StackCostGrows | game/src/ui/ShopScreen.js:256-284 | each further stack costs strictly more than the last, by a factor of at least 1.8 before rounding down, and never less than the table price |
| Shop.ItemEffectIsTable | game/src/ui/ShopScreen.js:373-447 | an item scales or raises each stat by its own factor or bonus, never both; the factors are positive, and the in-game items change no stat |
| Shop.StacksIterate | game/src/ui/ShopScreen.js:317-344 | buying n stacks applies the item's effect n times over |
| Shop.StacksCompound | game/src/ui/ShopScreen.js:317-344 | after n stacks a stat equals its start times the factor to the n plus n times the bonus |
| Shop.ItemsKeepStatsNonNegative | game/src/ui/ShopScreen.js:373-447 | no item drives a non-negative stat below zero |
| Shop.AddOnce | game/src/ui/ShopScreen.js:308-311 | the key is listed afterwards, appended exactly when it was missing, so the list never holds it twice |
| Shop.AddWeapon | game/src/ui/ShopScreen.js:305-311 | a new weapon is appended at level 1; an owned one changes nothing |
| Shop.AddItem | game/src/ui/ShopScreen.js:312-352 | a stackable item below its cap gains one stack, is listed and applies its effect; at the cap nothing happens; a single item is added and applied once only; other stacks never change |
| Shop.Purchase | game/src/ui/ShopScreen.js:286-371 | a weapon purchase with four weapons held, or any purchase the money cannot cover, changes nothing; otherwise exactly the price is paid; money never goes below zero and only the bought kind of entry changes |
| Shop.PurchaseKeepsHealthy | game/src/ui/ShopScreen.js:286-371 | purchases keep at most four weapons, no key listed twice, and no stack past its cap |
| Shop.CappedStackLosesMoney | game/src/ui/ShopScreen.js:301-329 | buying a stackable item at its cap takes the positive price and gives nothing, since the cap is checked after paying |
| Shop.Click | game/src/ui/ShopScreen.js:235-241 | a click on an owned entry or one at its cap changes nothing |
| Shop.ClickNeverWastesMoney | game/src/ui/ShopScreen.js:235-241 | when a click costs money, the entry becomes owned or gains one stack |
| Shop.UpgradeCost | game/src/ui/ShopScreen.js:462 | an upgrade costs the weapon's price times its level, but never less than 25 |
| Shop.UpgradeWeapon | game/src/ui/ShopScreen.js:449-477 | a weapon at level 4 or one the money cannot cover is left alone; otherwise the price is paid and its level rises by one; no other weapon's level changes |
| Shop.UpgradeKeepsLevelCap | game/src/ui/ShopScreen.js:449-477 | no weapon is upgraded past level 4 and money stays non-negative |
| Shop.Remove | game/src/ui/ShopScreen.js:495 | removal drops exactly that key, shortening a duplicate-free list by one when present and changing nothing when absent |
| Shop.SellPrice | game/src/ui/ShopScreen.js:491 | a weapon sells for 80% of its price, rounded down |
| Shop.SellWeapon | game/src/ui/ShopScreen.js:479-507 | the last weapon cannot be sold; otherwise the sale pays the sell price and forgets the weapon and its level |
| Shop.SellNeverEmpties | game/src/ui/ShopScreen.js:479-507 | selling never leaves the player without a weapon and keeps the record healthy |
| Shop.BuyThenSell | game/src/ui/ShopScreen.js:286-507 | buying a new weapon and selling it again restores the weapon list and levels at a net loss of its price minus the sell price |
| Shop.RemoveAppended | game/src/ui/ShopScreen.js:495 | removing a key just appended to a list without it gives back the original list |
| Upgrade.TypesListEachOnce | game/src/config/balance.js:759-769 | the end-of-wave table lists each of the nine stats exactly once |
| Upgrade.PrefixMonotone | game/src/config/balance.js:759-769 | the running weight total never falls along the table and ends at the total weight |
| Upgrade.Walk | game/src/ui/UpgradeScreen.js:50-57 | the scan picks, if anything, an entry at or after its start whose stat is not yet used |
| Upgrade.Bucket | game/src/ui/UpgradeScreen.js:47-52 | the bucket of a scaled roll is the first entry whose running weight total reaches it |
| Upgrade.FirstUnused | game/src/ui/UpgradeScreen.js:52-56 | the first entry from a position whose stat is not yet used, and none exactly when all from there are used |
| Upgrade.WalkFromBucket | game/src/ui/UpgradeScreen.js:47-57 | the subtracting scan picks the first unused entry at or after the roll's bucket |
| Upgrade.Draw | game/src/ui/UpgradeScreen.js:47-57 | one draw gives the first unused stat at or after the bucket its roll falls in, and nothing when every stat from there is used |
| Upgrade.LowDrawSucceeds | game/src/ui/UpgradeScreen.js:46-61 | with fewer than four stats used, a roll in the lowest bucket always yields a new stat |
| Upgrade.Phase | game/src/ui/UpgradeScreen.js:46-62 | the drawing loop stops with four offers or when the rolls run out, never losing what was picked |
| Upgrade.PhaseTakesDistinct | game/src/ui/UpgradeScreen.js:46-62 | the drawing loop keeps the offers already picked and never offers a stat twice |
| Upgrade.Fill | game/src/ui/UpgradeScreen.js:64-68 | the filling loop only appends, and adds nothing once there are four offers |
| Upgrade.Uniform | game/src/ui/UpgradeScreen.js:66 | a uniform pick lands on a valid table index |
| Upgrade.GenerateIsPhaseOne | game/src/ui/UpgradeScreen.js:35-69 | the generated offers are at most four distinct stats, all from the drawing loop, since the filling loop is never entered |
| Upgrade.PhaseFillsUp | game/src/ui/UpgradeScreen.js:46-62 | enough lowest-bucket rolls fill all the remaining offer slots |
| Upgrade.FourLowRollsGiveFour | game/src/ui/UpgradeScreen.js:35-69 | four lowest-bucket rolls are enough to generate a full set of four offers |
| Upgrade.CreateUpgrade | game/src/ui/UpgradeScreen.js:71-83 | a known stat key gives its offer with the table's value, and an unknown key gives nothing |
| Upgrade.CreateUpgradeFindsEach | game/src/ui/UpgradeScreen.js:71-83 | every stat's own key finds its offer |
| Upgrade.Offers | game/src/ui/UpgradeScreen.js:59-61 | one offer per generated stat, carrying that stat's value |
| Upgrade.SelectUpgrade | game/src/ui/UpgradeScreen.js:199-232 | choosing nothing changes nothing, and choosing an offer changes only its own stat |
| Upgrade.SelectAddsCapped | game/src/ui/UpgradeScreen.js:204-232 | the chosen stat rises by the offer's value, except that dodge is capped at 95 and crit chance at 100 |
| Upgrade.Activate | game/src/ui/UpgradeScreen.js:24-28 | opening the screen draws new offers and keeps the reroll count and flag |
| Upgrade.Reroll | game/src/ui/UpgradeScreen.js:243-267 | a reroll the screen forbids or the money cannot cover changes nothing; otherwise it pays 25 times the next reroll's number, draws new offers and forbids further rerolls after the third |
| Upgrade.RerollLimitSpansSession | game/src/ui/UpgradeScreen.js:13-14 | the reroll count is set only when the screen is built, so across any run of screens and actions it never decreases and money never rises |
| Upgrade.RerollSpendingBounded | game/src/ui/UpgradeScreen.js:243-267 | a whole session spends at most 150 on rerolls |
| Upgrade.SpentSoFar | game/src/ui/UpgradeScreen.js:243-267 | the money spent is exactly the price of the rerolls made, 25 plus 50 plus 75 at most |
| Upgrade.Split | game/src/ui/UpgradeScreen.js:372 | splitting at spaces gives at least one piece and no piece holds a space |
| Upgrade.JoinSplit | game/src/ui/UpgradeScreen.js:372 | joining the pieces with single spaces gives back the text |
| Upgrade.SplitJoin | game/src/ui/UpgradeScreen.js:372 | splitting space-free words joined with spaces gives back the words |
| Upgrade.Place | game/src/ui/UpgradeScreen.js:376-388 | placing a word either extends the current line, closes it, or emits an overlong word alone; the line carried on is empty, the word itself, or fits |
| Upgrade.PlaceJoins | game/src/ui/UpgradeScreen.js:376-388 | placing a word keeps the lines non-empty and appends exactly that word to the joined text |
| Upgrade.WrapText | game/src/ui/UpgradeScreen.js:371-395 | text without empty words is rejoined exactly by the lines; a text that fits the width and does not start with a space comes back whole as one line; no line is empty; a line too wide is a single word of the text |
| Upgrade.JoinEmpty | game/src/ui/UpgradeScreen.js:371-395 | non-empty lines join to the empty text only when there are none |
| Game.ItemsOf | game/src/game.js:215-225 | each item flag is set exactly when that item is owned; the bounce-house stack count is the non-zero `itemStacks` entry, else the legacy `bounceHouseStacks` field |
| Game.Arsenal | game/src/game.js:232-238 | one weapon per owned id, in order, each created at its saved level (a missing or zero level reads as 1) |
| Game.StartLevel | game/src/game.js:198-260 | a new round: the player at the centre of the play area with full health equal to the health stat and the speed stat, the item flags, the owned weapons, a fresh spawner for the level, no enemies, projectiles or pickups, a 50-second timer (`waveDuration`), nothing earned and the session playing that level |
| Game.StartedRoundIsArmed | game/src/game.js:198-260 | with a positive fire-rate stat every weapon of a new round has a positive rate, and every money pickup is whole |
| Game.CompleteRound | game/src/game.js:581-583 | completing a round banks the money earned into the record, unlocks per `completeLevel`, shows the round-complete screen and changes nothing else |
| Game.LostSession | game/src/game.js:601-606 | losing shows the game-over screen and wipes the record to a new character's, keeping the level |
| Game.Lose | game/src/game.js:601-606 | losing changes only the session |
| Game.PlayingTheUnlockedLevel | game/src/game.js:581-606 | starting the highest unlocked level below 30 and completing it unlocks the next and banks the earnings; losing it leaves money 0, one level and the base stats |
| Game.Pause | game/src/game.js:177-183 | pausing acts only while playing, and then marks the round paused and shows the pause screen; the record is untouched |
| Game.Resume | game/src/game.js:185-190 | resuming clears the pause and returns to playing with the record untouched |
| Game.PauseThenResume | game/src/game.js:177-190 | pausing a running round and resuming it gives back the same round |
| Game.Heal | game/src/game.js:561 | healing never passes the maximum, never lowers health that is within range, adds the full amount when it fits, and changes nothing but health |
| Game.Regen | game/src/game.js:271-276 | regeneration acts only below full health with a positive rate; then health rises by rate times frame time, capped at the maximum |
| Game.LowHealthIsThirtyPercent | game/src/game.js:298-299 | the adrenaline trigger is health at or below 30% of the maximum |
| Game.Adrenaline | game/src/game.js:296-311 | with the item, the boost is on exactly at low health; switching it on saves the speed and raises it by 30%, switching it off restores the saved speed; without the item nothing changes |
| Game.AdrenalineRoundTrip | game/src/game.js:296-311 | applying the rule twice is applying it once, and a boost followed by a recovery restores the original speed |
| Game.Vampire | game/src/game.js:377-394 | with the item a kill counts towards the heal threshold, and reaching it resets the counter and heals 0.1 capped at the maximum; without the item nothing changes |
| Game.VampireHealsEveryKill | game/src/game.js:377-394 | with a threshold of one kill, every kill heals min(max, health + 0.1) and resets the counter |
| Game.ContactOutcome | game/src/game.js:335-361 | a touch hurts exactly when the dodge roll misses and no shield block happens; it is dodged exactly when the roll times 100 is below the dodge stat; a block needs the shield |
| Game.ContactRolls | game/src/game.js:337-347 | a touch draws one number, and a second only when the dodge fails and the shield is owned |
| Game.ContactOdds | game/src/game.js:337-347 | a dodge stat of 100 or more always dodges; no dodge and no shield always hurts |
| Game.AdjustedDropChance | game/src/game.js:398-399 | the money-drop chance falls 1% per level past the first down to a floor of 5%, never above the enemy's base chance when that is above the floor |
| Game.DropChanceFalls | game/src/game.js:398-399 | the adjusted chance never rises with the level |
| Game.DropChance | game/src/game.js:400 | luck adds one point per unit to the adjusted chance, which stays at least 5% for non-negative luck |
| Game.MoneyValue | game/src/game.js:404-405 | a coin's value is the floor of the base value scaled by 10% per wave past the first and 2% per luck point |
| Game.MoneyValueAtLeastBase | game/src/game.js:404-405 | from wave 1 on with non-negative luck a coin is worth at least the enemy's base value |
| Game.MoneyDrop | game/src/game.js:401-407 | a kill drops one coin exactly when the roll is below the drop chance, at the enemy's position, worth the money value |
| Game.HealthDrop | game/src/game.js:410-414 | with blood pact a kill drops a 0.5 health pickup exactly when the roll is below 30%; without it never |
| Game.Kill | game/src/game.js:370-417 | a kill removes that enemy only, counts it, applies the vampiric rule, appends the money drop and then the health drop, and uses one number plus one more with blood pact |
| Game.Touch | game/src/game.js:335-417 | a touching enemy always dies; a dodge or block leaves the player unharmed; a hit either ends the game or leaves the player damaged by the enemy's damage |
| Game.EnemyTurn | game/src/game.js:331-417 | an enemy's turn keeps the earlier enemies and the weapons, timer and earnings; a touch ends the game or kills the enemy |
| Game.EnemyLoop | game/src/game.js:330-418 | the enemy pass keeps the weapons, timer and earnings, only appends projectiles, and leaves the session alone unless the game is lost |
| Game.Crit | game/src/game.js:436-444 | a hit does its damage or that times the crit-damage percentage; a crit chance of 100 always crits and 0 never does |
| Game.LifeSteal | game/src/game.js:457-462 | life steal heals 5% of the damage, only when that heal exceeds 0.5 |
| Game.Blast | game/src/game.js:465-488 | an explosion damages only living enemies other than the one hit, within the radius, and no others |
| Game.BlastSparesTheFar | game/src/game.js:470-477 | a dead enemy, or one beyond the radius, is untouched by an explosion |
| Game.Strike | game/src/game.js:434-488 | one hit draws one number and damages the enemy by the possibly critical damage, applying life steal when owned; without explosive rounds no other enemy changes |
| Game.Sweep | game/src/game.js:428-498 | a plain shot hits at most one enemy and dies when it hits; a piercing or boomerang shot skips the enemies it has hit before and records each new hit |
| Game.PlayerShot | game/src/game.js:426-540 | a player shot sweeps the enemies in order and then stays or is removed by whether it is alive |
| Game.EnemyShot | game/src/game.js:500-540 | an enemy shot that touches the living player is used up; a dodge leaves the player untouched, otherwise the player takes its damage and the game ends if that kills |
| Game.ProjectileTurn | game/src/game.js:422-540 | a projectile's turn keeps the earlier projectiles, the pickups and the kill count |
| Game.ProjectileLoop | game/src/game.js:421-541 | the projectile pass keeps the pickups, kills and enemy count, and leaves the session alone unless the game is lost |
| Game.PickupTurn | game/src/game.js:545-577 | a pickup within range or touching is collected: a coin adds its value to the earnings, a health pickup heals; one out of reach stays while alive and is dropped once expired |
| Game.PickupLoop | game/src/game.js:544-578 | the pickup pass changes only the pickups, the earnings and the player's health |
| Game.ExpiredPickupStillPays | game/src/game.js:545-577 | a coin whose lifetime runs out in the frame it is reached is still paid |
| Game.CollectEarnsValue | game/src/game.js:553-556 | collecting a whole-valued coin adds exactly its value to the earnings |
| Game.MovePlayer | game/src/game.js:314-321 | the player's movement changes only the player, never its health or life |
| Game.SpawnPhase | game/src/game.js:324 | spawning only appends enemies, each with the next fresh identity |
| Game.WeaponPhase | game/src/game.js:327 | the weapons move no enemy and keep every weapon's identity, only append projectiles, and with no enemies change nothing |
| Game.Combat | game/src/game.js:296-578 | after the timer, a frame keeps the weapons, timer and pause flag, and either keeps the session or loses the game |
| Game.Update | game/src/game.js:262-579 | a frame does nothing unless playing and not paused; otherwise the round completes exactly when the timer runs out, banking the earnings, and otherwise the timer falls by the frame time |
| Game.Frame | game/src/main.js:15-21 | each animation frame passes the elapsed time cut to 1/15 s to the update, and nothing happens once the loop has stopped |
| Game.EndedRoundStaysEnded | game/src/game.js:262-265 | once the round is no longer being played, no run of frames changes anything |
| Game.RoundCompletesOnce | game/src/game.js:279-283 | the frame that runs the timer out completes the round and banks the money once, and every later frame is idle |

## Left out

- Rendering, visual effects, sound, screen layout, hover and hit-testing are not modelled. They hold no game rule. This covers every `render`/`draw*` method, EffectsSystem.js, SoundSystem.js, the countdown sounds, Menu.js, SettingsScreen.js, PauseMenu.js, GameOverScreen.js, and the shop's wheel scrolling.
- Only one rule is kept from the menu: a level can be started only when it is the highest unlocked one. It is the predicate `Game.CanStart`.
- Browser plumbing is not modelled: main.js beyond its frame clamp, utils.js, input.js and the DOM listeners. Input is a set of held keys and an optional mouse position. The canvas width is the constant 800, so the HiDPI scaling is not modelled.
- localStorage and JSON are not modelled. A save is an optional progress record plus an optional weapon-level map.
- Weapons.Trigger: the Double Tap item has no effect on shots in the model. Its whole effect is a second full volley, fired through a delayed `setTimeout` with a 20% chance. The model draws that roll but fires nothing extra.
- The 2-second `setTimeout` before `showUpgradeScreen` is not modelled. Its point is asynchronous scheduling.
- Floating-point rounding is not modelled. `sin`, `cos`, `atan2` and `sqrt` are uninterpreted. The following are parameters of the model and are not computed: sine-wave motion, homing turn-rate steering, and the positions and headings of spawns and shots.
- Enemy.Update needs a non-zero canvas width. The source divides by it, and a width of 0 would give NaN.
- A heading towards a point at distance 0 is the zero vector in the model. The source gives NaN there.
- The gravity well is not modelled. It has no configuration, `createWeapon` never builds it, and its activation check follows the lifetime check that has already removed the projectile.
- Weapons.RocketLauncherRaises: the rocket launcher's `fire` reads the undefined `targetAngle` after queuing its rockets. The model stops the frame at that point (the `halted` flag) and does not fix it.
- Game.Update: a round needs a positive fire-rate stat and positive weapon fire rates (`Game.Armed`). With a zero rate the source's cooldown is infinite.
- The default fallbacks are not modelled: `|| ['pistol']` for weapons and `|| []` for items. A progress record always has both lists.
- Per-weapon damage statistics (`weaponDamageStats`) are not modelled. They are display only.
- `upgradeCostMultiplier` and the `maxValue` caps in `BALANCE.upgrades` are not modelled as limits. The code never reads them, and the model states that stats bought on the character screen are unbounded.
- Upgrade.Fill: the fill loop after the weighted phase is modelled. It is proved never to run when there are four options and nine types.

### Behaviour that follows the code

Where the code and its own design notes differ, the model follows the code:

- `selectEnemyType` returns the first type whose cumulative weight reaches the roll, not the last.
- Shop: buying a stackable item that is at its cap takes the money and adds nothing. Only the click guard prevents it (`Shop.CappedStackLosesMoney`).
- An enemy that is already dead still hurts the player on contact. The contact test does not look at `alive`.
- A pickup collected in the frame its lifetime ends still pays (`Game.ExpiredPickupStillPays`).
- A bouncing projectile can pass its bounce limit by one at a corner (`Projectile.CornerOvershoot`).
- The level-scaled bounce, boomerang and chain fields are computed but never used by `fire` (`Weapons.LevelledFieldsAreIgnored`, `Weapons.ChainIgnoresLevel`).
- The end-of-wave screen never resets its reroll counter, so the three-reroll limit spans the session (`Upgrade.RerollLimitSpansSession`).
- `wrapText` drops an empty word only while no line is being filled (at the start of the text, or right after an over-wide word took a line of its own); anywhere else it stays as an extra space in the line. So a text that fits the width and does not start with a space comes back whole, double and trailing spaces included, and any text without a leading, trailing or double space is rejoined exactly by its lines.
