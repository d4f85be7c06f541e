/** The weapons of game/src/systems/WeaponSystem.js: level scaling at
    construction, the fire-rate cooldown, the burst rifle's three-shot state
    machine, what each weapon's `fire` creates, chain lightning's greedy
    jumps, the factory `createWeapon`, and the system that updates every
    owned weapon once per frame. */
module Weapons {
  import opened Common
  import opened Entity
  import Balance
  import P = Projectile

  datatype WeaponId = Pistol | Shotgun | Smg | RocketLauncher | LaserBeam | Ricochet
                    | WaveGun | BurstRifle | OrbitalCannon | NovaBurst | ChainLightning | Boomerang

  /** The key of the weapon in `BALANCE.weapons`. */
  function Name(id: WeaponId): string
  {
    match id
    case Pistol => "pistol"
    case Shotgun => "shotgun"
    case Smg => "smg"
    case RocketLauncher => "rocketLauncher"
    case LaserBeam => "laserBeam"
    case Ricochet => "ricochet"
    case WaveGun => "waveGun"
    case BurstRifle => "burstRifle"
    case OrbitalCannon => "orbitalCannon"
    case NovaBurst => "novaBurst"
    case ChainLightning => "chainLightning"
    case Boomerang => "boomerang"
  }

  /** The weapon a `BALANCE.weapons` key names, if it names one. */
  function ParseId(name: string): (r: Option<WeaponId>)
    ensures r.Some? ==> Name(r.value) == name
    ensures r.None? ==> forall id: WeaponId :: Name(id) != name
  {
    if name == "pistol" then Some(Pistol)
    else if name == "shotgun" then Some(Shotgun)
    else if name == "smg" then Some(Smg)
    else if name == "rocketLauncher" then Some(RocketLauncher)
    else if name == "laserBeam" then Some(LaserBeam)
    else if name == "ricochet" then Some(Ricochet)
    else if name == "waveGun" then Some(WaveGun)
    else if name == "burstRifle" then Some(BurstRifle)
    else if name == "orbitalCannon" then Some(OrbitalCannon)
    else if name == "novaBurst" then Some(NovaBurst)
    else if name == "chainLightning" then Some(ChainLightning)
    else if name == "boomerang" then Some(Boomerang)
    else None
  }

  /** Every weapon's key parses back to that weapon. */
  lemma NamesParse(id: WeaponId)
    ensures ParseId(Name(id)) == Some(id)
  {
  }

  // ---------------------------------------------------------------------
  // Configuration

  /** The fields of a `BALANCE.weapons` entry the constructor reads, with
      the `|| 1` and `|| 0` defaults already applied. */
  datatype WeaponConfig = WeaponConfig(cost: int, fireRate: real, damageMultiplier: real,
                                       projectileCount: int, spread: real, aoeRadius: real)

  function Config(id: WeaponId): (c: WeaponConfig)
    ensures c.cost > 0 && c.fireRate > 0.0 && c.damageMultiplier > 0.0 && c.projectileCount >= 1
  {
    match id
    case Pistol => WeaponConfig(25, 1.0, 1.0, 1, 0.0, 0.0)
    case Shotgun => WeaponConfig(50, 0.2, 3.0, 4, Pi / 4.0, 0.0)
    case Smg => WeaponConfig(120, 8.0, 0.25, 1, Pi / 12.0, 0.0)
    case RocketLauncher => WeaponConfig(500, 0.19, 15.0, 1, 0.0, 100.0)
    case LaserBeam => WeaponConfig(300, 40.0, 0.1, 1, 0.0, 0.0)
    case Ricochet => WeaponConfig(175, 2.0, 1.2, 1, 0.0, 0.0)
    case WaveGun => WeaponConfig(180, 1.5, 2.25, 3, 0.0, 0.0)
    case BurstRifle => WeaponConfig(125, 1.2, 3.5, 3, Pi / 24.0, 0.0)
    case OrbitalCannon => WeaponConfig(400, 0.5, 8.5, 8, Pi * 2.0, 0.0)
    case NovaBurst => WeaponConfig(300, 1.2, 1.5, 10, Pi * 2.0, 0.0)
    case ChainLightning => WeaponConfig(2000, 1.8, 2.4, 1, 0.0, 0.0)
    case Boomerang => WeaponConfig(65, 0.7, 2.2, 1, 0.0, 0.0)
  }

  /** Per-weapon constants `fire` reads straight from the base tables. */
  const RicochetBounces := 7
  const ChainJumps := 3
  const ChainRange := 60.0
  const ChainDamageDecay := 0.75
  const BoomerangDistance := 200.0
  const BurstShots := 3
  const BurstDelay := 0.08
  /** The first chain-lightning target must be at most this far away... */
  const FirstHitRange := 300.0
  /** ...and within this angle of the aim. */
  const FirstHitCone := Pi / 4.0

  /** Item constants `fire` reads from `BALANCE.items`. */
  const BouncesPerStack := 1
  const ExplosiveRoundsRadius := 30.0
  const ExplosiveRoundsDamage := 0.3

  /** The special a weapon's upgrade entry names. */
  datatype Special = Accuracy | TighterSpread | Penetration | MultiRocket | Width | Precision
                   | Spiral | ExplosiveNova | Fork | ReturnSpeed | Homing | Frequency

  /** The per-level bonuses of a `BALANCE.weaponUpgrades` entry the
      constructor reads; an absent bonus is 0. The table's per-level
      `fireRate` and `waveAmplitude` bonuses are never read. */
  datatype Upgrade = Upgrade(damage: real, projectileCount: int, aoeRadius: real, bounces: int,
                             chainJumps: int, chainRange: real, boomerangDistance: real,
                             special: Special)

  function Upgrades(id: WeaponId): Upgrade
  {
    match id
    case Pistol => Upgrade(0.25, 0, 0.0, 0, 0, 0.0, 0.0, Accuracy)
    case Shotgun => Upgrade(0.2, 1, 0.0, 0, 0, 0.0, 0.0, TighterSpread)
    case Smg => Upgrade(0.15, 0, 0.0, 0, 0, 0.0, 0.0, Penetration)
    case RocketLauncher => Upgrade(0.3, 0, 15.0, 0, 0, 0.0, 0.0, MultiRocket)
    case LaserBeam => Upgrade(0.2, 0, 0.0, 0, 0, 0.0, 0.0, Width)
    case Ricochet => Upgrade(0.15, 0, 0.0, 2, 0, 0.0, 0.0, Homing)
    case WaveGun => Upgrade(0.0, 1, 0.0, 0, 0, 0.0, 0.0, Frequency)
    case BurstRifle => Upgrade(0.2, 1, 0.0, 0, 0, 0.0, 0.0, Precision)
    case OrbitalCannon => Upgrade(0.15, 2, 0.0, 0, 0, 0.0, 0.0, Spiral)
    case NovaBurst => Upgrade(0.1, 2, 0.0, 0, 0, 0.0, 0.0, ExplosiveNova)
    case ChainLightning => Upgrade(0.0, 0, 0.0, 0, 1, 20.0, 0.0, Fork)
    case Boomerang => Upgrade(0.0, 1, 0.0, 0, 0, 0.0, 50.0, ReturnSpeed)
  }

  // ---------------------------------------------------------------------
  // The weapon record

  /** The level-scaled numbers every weapon has. */
  datatype Levelled = Levelled(damageMultiplier: real, projectileCount: int, spread: real,
                               aoeRadius: real)

  /** The fields the specials switch sets; 0 and `false` stand for a field
      the switch left unset, which JavaScript reads as falsy. */
  datatype Specials = Specials(autoAimBonus: real, piercing: bool, beamWidth: real, spiral: bool,
                               explosiveNova: bool, fork: bool, returnSpeedMultiplier: real)

  const NoSpecials := Specials(0.0, false, 0.0, false, false, false, 0.0)

  /** The level-scaled fields only some weapons get. */
  datatype Extra = NoExtra | RicochetExtra(maxBounces: int)
                 | ChainExtra(jumps: int, range: real) | BoomerangExtra(distance: real)

  /** The burst rifle's shots still to fire and the delay to the next. */
  datatype Burst = Burst(count: int, timer: real)

  datatype Weapon = Weapon(id: WeaponId, level: int, baseFireRate: real, stats: Levelled,
                           specials: Specials, extra: Extra, cooldown: real, burst: Burst)

  /** The specials switch for a weapon at `level`: flags switch on at a
      fixed level, and the numeric specials grow linearly. Specials without
      a case in the switch set nothing. */
  function SpecialsAt(special: Special, level: int): (r: Specials)
    ensures r.piercing <==> special == Penetration && level >= 3
    ensures r.spiral <==> special == Spiral && level >= 3
    ensures r.explosiveNova <==> special == ExplosiveNova && level >= 4
    ensures r.fork <==> special == Fork && level >= 4
    ensures r.autoAimBonus == (if special == Accuracy then 5.0 * (level - 1) as real else 0.0)
    ensures special !in {Accuracy, Penetration, Width, Spiral, ExplosiveNova, Fork, ReturnSpeed} ==>
      r == NoSpecials
  {
    match special
    case Accuracy => NoSpecials.(autoAimBonus := 5.0 * (level - 1) as real)
    case Penetration => NoSpecials.(piercing := level >= 3)
    case Width => NoSpecials.(beamWidth := 2.0 + (level - 1) as real * 2.0)
    case Spiral => NoSpecials.(spiral := level >= 3)
    case ExplosiveNova => NoSpecials.(explosiveNova := level >= 4)
    case Fork => NoSpecials.(fork := level >= 4)
    case ReturnSpeed => NoSpecials.(returnSpeedMultiplier := 1.0 + (level - 1) as real * 0.3)
    case _ => NoSpecials
  }

  /** The level-scaled numbers: each grows linearly with the level above 1
      by its per-level bonus; the rocket launcher's count is then replaced
      by 2 from level 4, and the shotgun's and burst rifle's spreads shrink
      geometrically. */
  function LevelledAt(id: WeaponId, level: int): (l: Levelled)
    ensures l.damageMultiplier == Config(id).damageMultiplier + Upgrades(id).damage * (level - 1) as real
    ensures l.aoeRadius == Config(id).aoeRadius + Upgrades(id).aoeRadius * (level - 1) as real
    ensures id != RocketLauncher ==>
      l.projectileCount == Config(id).projectileCount + Upgrades(id).projectileCount * (level - 1)
    ensures id == RocketLauncher ==> l.projectileCount == (if level >= 4 then 2 else 1)
    ensures id == Shotgun ==> l.spread == Pi / 4.0 * PowInt(0.85, level - 1)
    ensures id == BurstRifle ==> l.spread == Pi / 24.0 * PowInt(0.75, level - 1)
    ensures id != Shotgun && id != BurstRifle ==> l.spread == Config(id).spread
  {
    var c := Config(id);
    var u := Upgrades(id);
    var n := c.projectileCount + u.projectileCount * (level - 1);
    var spread := match u.special
      case TighterSpread => c.spread * PowInt(0.85, level - 1)
      case Precision => c.spread * PowInt(0.75, level - 1)
      case _ => c.spread;
    Levelled(c.damageMultiplier + u.damage * (level - 1) as real,
             if u.special == MultiRocket && level >= 4 then 2 else n,
             spread,
             c.aoeRadius + u.aoeRadius * (level - 1) as real)
  }

  /** The per-weapon level-scaled fields: the ricochet gun's bounces, chain
      lightning's jumps and range, the boomerang's distance. */
  function ExtraAt(id: WeaponId, level: int): (e: Extra)
    ensures id == Ricochet ==> e == RicochetExtra(RicochetBounces + 2 * (level - 1))
    ensures id == ChainLightning ==>
      e == ChainExtra(ChainJumps + (level - 1), ChainRange + 20.0 * (level - 1) as real)
    ensures id == Boomerang ==> e == BoomerangExtra(BoomerangDistance + 50.0 * (level - 1) as real)
    ensures id !in {Ricochet, ChainLightning, Boomerang} ==> e == NoExtra
  {
    var u := Upgrades(id);
    match id
    case Ricochet => RicochetExtra(RicochetBounces + u.bounces * (level - 1))
    case ChainLightning => ChainExtra(ChainJumps + u.chainJumps * (level - 1),
                                      ChainRange + u.chainRange * (level - 1) as real)
    case Boomerang => BoomerangExtra(BoomerangDistance + u.boomerangDistance * (level - 1) as real)
    case _ => NoExtra
  }

  /** The constructor of a weapon at `level`. The cooldown starts at 0, so
      the weapon fires on its first update with an enemy present; only the
      SMG can pierce, only the pistol has an auto-aim bonus. */
  function NewWeapon(id: WeaponId, level: int): (w: Weapon)
    ensures w.id == id && w.level == level && w.cooldown == 0.0 && w.burst == Burst(0, 0.0)
    ensures w.baseFireRate == Config(id).fireRate
    ensures w.stats == LevelledAt(id, level) && w.extra == ExtraAt(id, level)
    ensures w.specials.piercing <==> id == Smg && level >= 3
    ensures w.specials.explosiveNova <==> id == NovaBurst && level >= 4
    ensures w.specials.fork <==> id == ChainLightning && level >= 4
    ensures w.specials.spiral <==> id == OrbitalCannon && level >= 3
    ensures w.specials.autoAimBonus == (if id == Pistol then 5.0 * (level - 1) as real else 0.0)
  {
    Weapon(id, level, Config(id).fireRate, LevelledAt(id, level), SpecialsAt(Upgrades(id).special, level),
           ExtraAt(id, level), 0.0, Burst(0, 0.0))
  }

  /** Level 1 is the base configuration, and from there each level adds a
      non-negative amount to the damage multiplier and the projectile count
      and never widens a spread. */
  lemma LevelScalingMonotone(id: WeaponId, l1: int, l2: int)
    requires 1 <= l1 <= l2
    ensures NewWeapon(id, 1).stats ==
      Levelled(Config(id).damageMultiplier, Config(id).projectileCount, Config(id).spread,
               Config(id).aoeRadius)
    ensures NewWeapon(id, l1).stats.damageMultiplier <= NewWeapon(id, l2).stats.damageMultiplier
    ensures NewWeapon(id, l1).stats.projectileCount <= NewWeapon(id, l2).stats.projectileCount
    ensures NewWeapon(id, l2).stats.spread <= NewWeapon(id, l1).stats.spread
  {
    LevelOneIsBase(id);
    DamageGrows(id, l1, l2);
    CountGrows(id, l1, l2);
    SpreadShrinks(id, l1, l2);
  }

  lemma LevelOneIsBase(id: WeaponId)
    ensures NewWeapon(id, 1).stats ==
      Levelled(Config(id).damageMultiplier, Config(id).projectileCount, Config(id).spread,
               Config(id).aoeRadius)
  {
  }

  lemma DamageGrows(id: WeaponId, l1: int, l2: int)
    requires 1 <= l1 <= l2
    ensures NewWeapon(id, l1).stats.damageMultiplier <= NewWeapon(id, l2).stats.damageMultiplier
  {
  }

  lemma CountGrows(id: WeaponId, l1: int, l2: int)
    requires 1 <= l1 <= l2
    ensures NewWeapon(id, l1).stats.projectileCount <= NewWeapon(id, l2).stats.projectileCount
  {
  }

  lemma SpreadShrinks(id: WeaponId, l1: int, l2: int)
    requires 1 <= l1 <= l2
    ensures NewWeapon(id, l2).stats.spread <= NewWeapon(id, l1).stats.spread
  {
    match id
    case Shotgun => PowDecreasing(0.85, l1 - 1, l2 - 1);
    case BurstRifle => PowDecreasing(0.75, l1 - 1, l2 - 1);
    case _ =>
  }

  lemma {:induction false} PowDecreasing(b: real, m: nat, n: nat)
    requires 0.0 < b <= 1.0 && m <= n
    ensures Pow(b, n) <= Pow(b, m)
    decreases n - m
  {
    if m < n {
      PowDecreasing(b, m, n - 1);
      PowPositive(b, n - 1);
      assert Pow(b, n) == b * Pow(b, n - 1) <= Pow(b, n - 1);
    }
  }

  /** The discrete specials: the SMG pierces from level 3, the rocket
      launcher fires exactly two rockets from level 4 (one below), nova and
      chain-lightning flags switch on at level 4; no other weapon gets any of
      these. */
  lemma SpecialsAreThresholds(level: int)
    ensures NewWeapon(Smg, level).specials.piercing <==> level >= 3
    ensures NewWeapon(RocketLauncher, level).stats.projectileCount == 2 <==> level >= 4
    ensures NewWeapon(NovaBurst, level).specials.explosiveNova <==> level >= 4
    ensures NewWeapon(ChainLightning, level).specials.fork <==> level >= 4
    ensures forall id: WeaponId :: id != Smg ==> !NewWeapon(id, level).specials.piercing
  {
  }

  // ---------------------------------------------------------------------
  // Fire rate and damage

  /** What `fire` and `update` read from the player: position and aim, the
      damage and fire-rate stats, and the item flags set when the level
      starts. */
  datatype Shooter = Shooter(pos: Vec, aimAngle: real, damage: real, fireRate: real,
                             bounceHouse: bool, bounceHouseStacks: int,
                             explosiveRounds: bool, doubleTap: bool)

  /** `getFireRate`: shots per second. The level plays no part. */
  function FireRate(w: Weapon, s: Shooter): real
  {
    w.baseFireRate * s.fireRate
  }

  /** The per-level fire-rate bonuses of the upgrade table never reach the
      weapon: two levels of the same weapon fire equally fast. */
  lemma FireRateIgnoresLevel(id: WeaponId, l1: int, l2: int, s: Shooter)
    ensures FireRate(NewWeapon(id, l1), s) == FireRate(NewWeapon(id, l2), s) == Config(id).fireRate * s.fireRate
  {
    NewWeaponRate(id, l1, s);
    NewWeaponRate(id, l2, s);
  }

  lemma NewWeaponRate(id: WeaponId, level: int, s: Shooter)
    ensures FireRate(NewWeapon(id, level), s) == Config(id).fireRate * s.fireRate
  {
    SameBaseRate(NewWeapon(id, level), Config(id).fireRate, s);
  }

  /** Two weapons with the same base rate fire equally fast for a shooter. */
  lemma SameBaseRate(w: Weapon, rate: real, s: Shooter)
    requires w.baseFireRate == rate
    ensures FireRate(w, s) == rate * s.fireRate
  {
  }

  /** `getDamage`: the floor of the player's damage times the multiplier,
      but never below 1. */
  function GetDamage(w: Weapon, s: Shooter): (d: int)
    ensures d >= 1
    ensures d as real <= Max(1.0, s.damage * w.stats.damageMultiplier) < d as real + 1.0
  {
    var x := (s.damage * w.stats.damageMultiplier).Floor;
    if x >= 1 then x else 1
  }

  // ---------------------------------------------------------------------
  // What each weapon fires

  /** The shots of one `fire`, the enemy list after it (only chain lightning
      changes it), how many random numbers it used, and whether it ended in
      a JavaScript exception. */
  datatype Volley = Volley(shots: seq<P.Projectile>, enemies: seq<Target>, used: nat, raised: bool)

  function Quiet(enemies: seq<Target>): Volley { Volley([], enemies, 0, false) }

  /** A fresh player shot along `angle` carrying `damage`. */
  function Shot(s: Shooter, angle: real, damage: int, trig: Trig): (p: P.Projectile)
    ensures p.owner == P.PlayerOwned && p.damage == damage as real && p.body.pos == s.pos
  {
    P.NewProjectile(s.pos, angle, P.PlayerOwned, trig).(damage := damage as real)
  }

  /** The bounces the Bounce House gives: one per stack, where a stack
      count of 0 reads as 1. */
  function HouseBounces(s: Shooter): int
  {
    BouncesPerStack * (if s.bounceHouseStacks == 0 then 1 else s.bounceHouseStacks)
  }

  /** The item effects pistol, shotgun and SMG shots share: with the Bounce
      House the shot may bounce `bounces` times; with Explosive Rounds it
      explodes in `radius` for 30% of its damage. */
  function WithItems(p: P.Projectile, s: Shooter, bounces: int, radius: real): (r: P.Projectile)
    ensures r.maxBounces == (if s.bounceHouse then bounces else p.maxBounces)
    ensures r.fx.explosive == (s.explosiveRounds || p.fx.explosive)
    ensures s.explosiveRounds ==> r.fx.explosionRadius == radius && r.fx.explosionDamage == p.damage * ExplosiveRoundsDamage
    ensures r.(maxBounces := p.maxBounces, fx := p.fx) == p
    ensures r.fx.piercing == p.fx.piercing
  {
    var q := if s.bounceHouse then p.(maxBounces := bounces) else p;
    if s.explosiveRounds then
      q.(fx := q.fx.(explosive := true, explosionRadius := radius,
                     explosionDamage := q.damage * ExplosiveRoundsDamage))
    else q
  }

  /** The angle offset of cone member `i` of `n`. JavaScript divides 0 by 0
      for a one-member cone; the model takes offset 0 there. */
  function ConeOffset(i: int, n: int, spread: real): real
  {
    if n == 1 then 0.0 else ((i as real) - (n - 1) as real / 2.0) * spread / (n - 1) as real
  }

  function PistolShot(w: Weapon, s: Shooter, trig: Trig): (p: P.Projectile)
    ensures p.owner == P.PlayerOwned && p.damage == GetDamage(w, s) as real && !p.fx.piercing
    ensures s.bounceHouse ==> p.maxBounces == HouseBounces(s)
    ensures s.explosiveRounds ==>
      p.fx.explosive && p.fx.explosionRadius == ExplosiveRoundsRadius
      && p.fx.explosionDamage == GetDamage(w, s) as real * ExplosiveRoundsDamage
    ensures p.aim.autoAimRadius == P.DefaultAutoAimRadius + w.specials.autoAimBonus
  {
    var p := Shot(s, s.aimAngle, GetDamage(w, s), trig);
    var q := if w.specials.autoAimBonus != 0.0
             then p.(aim := p.aim.(autoAimRadius := P.DefaultAutoAimRadius + w.specials.autoAimBonus))
             else p;
    WithItems(q, s, HouseBounces(s), ExplosiveRoundsRadius)
  }

  function Pellet(w: Weapon, s: Shooter, i: int, n: int, r: Roll, trig: Trig): (p: P.Projectile)
    ensures p.owner == P.PlayerOwned && p.damage == GetDamage(w, s) as real && p.fx.piercing
    ensures Balance.ProjectileBaseSpeed * 0.8 <= p.speed < Balance.ProjectileBaseSpeed * 1.2
    ensures s.bounceHouse ==> p.maxBounces == HouseBounces(s) / 2
    ensures s.explosiveRounds ==> p.fx.explosive && p.fx.explosionRadius == ExplosiveRoundsRadius * 0.5
  {
    var p := Shot(s, s.aimAngle + ConeOffset(i, n, w.stats.spread), GetDamage(w, s), trig);
    var q := p.(fx := p.fx.(piercing := true),
                speed := Balance.ProjectileBaseSpeed * (0.8 + r * 0.4));
    WithItems(q, s, HouseBounces(s) / 2, ExplosiveRoundsRadius * 0.5)
  }

  /** The shotgun's pellets: one per projectile (none for a negative
      count), pellet `i` spread across the cone and drawing number `i`. */
  function Pellets(w: Weapon, s: Shooter, rng: Rng, trig: Trig): (r: seq<P.Projectile>)
    ensures |r| == (if w.stats.projectileCount < 0 then 0 else w.stats.projectileCount)
    ensures forall k :: 0 <= k < |r| ==> r[k] == Pellet(w, s, k, w.stats.projectileCount, rng(k), trig)
  {
    var n := w.stats.projectileCount;
    var m := if n < 0 then 0 else n;
    seq(m, i requires 0 <= i < m => Pellet(w, s, i, n, rng(i), trig))
  }

  function SmgShot(w: Weapon, s: Shooter, r: Roll, trig: Trig): (p: P.Projectile)
    ensures p.owner == P.PlayerOwned && p.damage == GetDamage(w, s) as real
    ensures p.fx.piercing == w.specials.piercing && p.body.size == 3.0
  {
    var p := Shot(s, s.aimAngle + (r - 0.5) * w.stats.spread, GetDamage(w, s), trig);
    var q := p.(body := p.body.(size := 3.0),
                fx := p.fx.(piercing := w.specials.piercing));
    WithItems(q, s, HouseBounces(s), ExplosiveRoundsRadius * 0.3)
  }

  /** A rocket: big, slow, exploding for its full damage in the weapon's
      blast radius, homing on `target`, never bouncing. */
  function Rocket(w: Weapon, s: Shooter, angle: real, target: Option<nat>, trig: Trig): (p: P.Projectile)
    ensures p.owner == P.PlayerOwned && p.aim.homing && p.aim.target == target && p.maxBounces == 0
    ensures p.fx.explosive && p.fx.explosionDamage == p.damage == GetDamage(w, s) as real
  {
    var p := Shot(s, angle, GetDamage(w, s), trig);
    p.(body := p.body.(size := 10.0), speed := Balance.ProjectileBaseSpeed * 0.7,
       fx := p.fx.(explosive := true, explosionRadius := w.stats.aoeRadius,
                   explosionDamage := p.damage, trail := true),
       aim := p.aim.(homing := true, target := target, strength := 4.0),
       maxBounces := 0)
  }

  /** The rockets of one launch: all aim at the nearest living enemy (or
      along the aim with none), fanned 0.15 rad apart when there are
      several. */
  function Rockets(w: Weapon, s: Shooter, enemies: seq<Target>, trig: Trig): (r: seq<P.Projectile>)
    ensures |r| == (if w.stats.projectileCount < 0 then 0 else w.stats.projectileCount)
    ensures forall k :: 0 <= k < |r| ==>
      (r[k].owner == P.PlayerOwned && r[k].aim.homing
       && r[k].fx.explosive && r[k].maxBounces == 0)
    ensures forall k :: 0 <= k < |r| ==>
      (r[k].aim.target.None? <==> forall j :: 0 <= j < |enemies| ==> !enemies[j].body.alive)
  {
    var nearest := Closest(enemies, s.pos, (t: Target) => t.body.alive);
    var base := match nearest
      case Some(j) => trig.atan2(enemies[j].body.pos.y - s.pos.y, enemies[j].body.pos.x - s.pos.x)
      case None => s.aimAngle;
    var target := match nearest
      case Some(j) => Some(enemies[j].id)
      case None => None;
    var n := w.stats.projectileCount;
    seq(if n < 0 then 0 else n, i =>
      Rocket(w, s, base + (if n > 1 then ((i as real) - (n - 1) as real / 2.0) * 0.15 else 0.0), target, trig))
  }

  function LaserShot(w: Weapon, s: Shooter, trig: Trig): (p: P.Projectile)
    ensures p.owner == P.PlayerOwned && p.fx.piercing && p.lifetime == 0.5
  {
    var p := Shot(s, s.aimAngle, GetDamage(w, s), trig);
    p.(speed := Balance.ProjectileBaseSpeed * 3.0, body := p.body.(size := 2.0),
       fx := p.fx.(piercing := true), lifetime := 0.5)
  }

  function RicochetShot(w: Weapon, s: Shooter, trig: Trig): (p: P.Projectile)
    ensures p.owner == P.PlayerOwned && p.maxBounces == RicochetBounces && p.fx.smartBounce
  {
    var p := Shot(s, s.aimAngle, GetDamage(w, s), trig);
    p.(maxBounces := RicochetBounces, fx := p.fx.(smartBounce := true))
  }

  function WaveShot(w: Weapon, s: Shooter, i: int, trig: Trig): (p: P.Projectile)
    ensures p.owner == P.PlayerOwned && p.fx.piercing && p.wave.on
  {
    var p := Shot(s, s.aimAngle, GetDamage(w, s), trig);
    p.(fx := p.fx.(piercing := true), body := p.body.(size := 6.0),
       wave := p.wave.(on := true, phase := (i as real) * (Pi * 2.0 / 3.0), amplitude := 30.0))
  }

  function BurstShot(w: Weapon, s: Shooter, r: Roll, trig: Trig): (p: P.Projectile)
    ensures p.owner == P.PlayerOwned && p.damage == GetDamage(w, s) as real
  {
    var p := Shot(s, s.aimAngle + (r - 0.5) * w.stats.spread, GetDamage(w, s), trig);
    p.(speed := Balance.ProjectileBaseSpeed * 1.5)
  }

  function OrbitalShot(w: Weapon, s: Shooter, i: int, trig: Trig): (p: P.Projectile)
    ensures p.owner == P.PlayerOwned && p.lifetime == 2.0
    ensures p.maxBounces == (if s.bounceHouse then Balance.BounceHouseMaxBounces else 0)
  {
    var p := Shot(s, (Pi * 2.0 / 8.0) * (i as real), GetDamage(w, s), trig);
    var q := p.(speed := Balance.ProjectileBaseSpeed * 0.6, body := p.body.(size := 8.0),
                lifetime := 2.0);
    if s.bounceHouse then q.(maxBounces := Balance.BounceHouseMaxBounces) else q
  }

  function NovaShot(w: Weapon, s: Shooter, i: int, trig: Trig): (p: P.Projectile)
    ensures p.owner == P.PlayerOwned && p.fx.piercing
    ensures p.maxBounces == (if s.bounceHouse then Balance.BounceHouseMaxBounces else 0)
  {
    var p := Shot(s, s.aimAngle + (Pi * 2.0 / 10.0) * (i as real), GetDamage(w, s), trig);
    var q := p.(speed := Balance.ProjectileBaseSpeed * 0.8, body := p.body.(size := 5.0),
                fx := p.fx.(piercing := true));
    WithItems(q, s, Balance.BounceHouseMaxBounces, ExplosiveRoundsRadius)
  }

  function BoomerangShot(w: Weapon, s: Shooter, trig: Trig): (p: P.Projectile)
    ensures p.owner == P.PlayerOwned && p.boom.on && p.boom.distance == BoomerangDistance
    ensures p.boom.start == Some(s.pos) && !p.boom.returning && p.hitEnemies == {}
  {
    var p := Shot(s, s.aimAngle, GetDamage(w, s), trig);
    p.(body := p.body.(size := 8.0),
       boom := P.Boomerang(true, BoomerangDistance, Some(s.pos), false, 0.0))
  }

  // ---------------------------------------------------------------------
  // Chain lightning

  /** One lightning hit: the index of the enemy and the damage it took. */
  datatype Strike = Strike(index: nat, damage: real)

  /** The enemies a jump from `from` may reach: alive, not struck before,
      and strictly closer than the chain range. */
  function Reachable(from: Vec, struck: set<nat>): Target -> bool
  {
    (t: Target) => t.body.alive && t.id !in struck && StrictlyWithin(DistSq(t.body.pos, from), ChainRange)
  }

  /** Apply one hit to the enemy at index `j`. */
  function Hit(ts: seq<Target>, j: nat, damage: real): (r: seq<Target>)
    requires j < |ts|
    ensures |r| == |ts| && r[j] == ts[j].(body := TakeDamage(ts[j].body, damage))
    ensures forall k :: 0 <= k < |ts| && k != j ==> r[k] == ts[k]
  {
    ts[j := ts[j].(body := TakeDamage(ts[j].body, damage))]
  }

  /** The enemy list with the strikes applied in order. */
  function Apply(ts: seq<Target>, strikes: seq<Strike>): seq<Target>
    decreases |strikes|
  {
    if |strikes| == 0 then ts
    else if strikes[0].index < |ts| then Apply(Hit(ts, strikes[0].index, strikes[0].damage), strikes[1..])
    else Apply(ts, strikes[1..])
  }

  /** Strikes change health and the alive flag of the struck enemies only:
      the list keeps its length, order, identities and positions, and an
      enemy no strike names is left exactly as it was. */
  lemma {:induction false} ApplyFrame(ts: seq<Target>, strikes: seq<Strike>)
    ensures |Apply(ts, strikes)| == |ts|
    ensures forall j :: 0 <= j < |ts| ==>
      Apply(ts, strikes)[j].id == ts[j].id && Apply(ts, strikes)[j].body.pos == ts[j].body.pos
    ensures forall j :: 0 <= j < |ts| && (forall k :: 0 <= k < |strikes| ==> strikes[k].index != j) ==>
      Apply(ts, strikes)[j] == ts[j]
    decreases |strikes|
  {
    if |strikes| > 0 {
      var next := if strikes[0].index < |ts| then Hit(ts, strikes[0].index, strikes[0].damage) else ts;
      ApplyFrame(next, strikes[1..]);
      forall j | 0 <= j < |ts| && (forall k :: 0 <= k < |strikes| ==> strikes[k].index != j)
        ensures Apply(ts, strikes)[j] == ts[j]
      {
        assert strikes[0].index != j;
        forall k | 0 <= k < |strikes[1..]| ensures strikes[1..][k].index != j {
          assert strikes[1..][k] == strikes[k + 1];
        }
      }
    }
  }

  /** A well-formed run of jumps on `ts`, one strike at a time: the struck
      enemy is alive and not in `struck`, takes exactly `first`, and the rest
      of the run, on the list after that hit, starts within the chain range
      of it, avoids it, and deals 0.75 times as much. */
  predicate Run(ts: seq<Target>, struck: set<nat>, first: real, strikes: seq<Strike>)
    decreases |strikes|
  {
    |strikes| == 0 ||
    (var j := strikes[0].index;
     && j < |ts| && ts[j].body.alive && ts[j].id !in struck && strikes[0].damage == first
     && StartsNear(Hit(ts, j, first), ts[j].body.pos, strikes[1..])
     && Run(Hit(ts, j, first), struck + {ts[j].id}, first * ChainDamageDecay, strikes[1..]))
  }

  /** The first jump lands strictly within the chain range of `origin`. */
  predicate StartsNear(ts: seq<Target>, origin: Vec, strikes: seq<Strike>)
  {
    |strikes| > 0 ==>
      strikes[0].index < |ts| && StrictlyWithin(DistSq(ts[strikes[0].index].body.pos, origin), ChainRange)
  }

  /** Every strike of a run names a living enemy of the original list that
      was not struck before. */
  lemma {:induction false} RunStrikesLiving(ts: seq<Target>, struck: set<nat>, first: real, strikes: seq<Strike>)
    requires Run(ts, struck, first, strikes)
    ensures forall k :: 0 <= k < |strikes| ==>
      strikes[k].index < |ts| && ts[strikes[k].index].body.alive && ts[strikes[k].index].id !in struck
    decreases |strikes|
  {
    if |strikes| > 0 {
      var j := strikes[0].index;
      var ts1 := Hit(ts, j, first);
      var tail := strikes[1..];
      RunStrikesLiving(ts1, struck + {ts[j].id}, first * ChainDamageDecay, tail);
      forall k | 1 <= k < |strikes|
        ensures strikes[k].index < |ts| && ts[strikes[k].index].body.alive && ts[strikes[k].index].id !in struck
      {
        var t := tail[k - 1];
        assert strikes[k] == t;
        assert t.index < |ts1| && ts1[t.index].body.alive && ts1[t.index].id !in struck + {ts[j].id};
        assert t.index != j by {
          assert ts1[j].id == ts[j].id;
        }
        assert ts1[t.index] == ts[t.index];
      }
    }
  }

  /** The k-th strike of a run deals `first` times 0.75^k. */
  lemma {:induction false} RunDamage(ts: seq<Target>, struck: set<nat>, first: real, strikes: seq<Strike>)
    requires Run(ts, struck, first, strikes)
    ensures forall k :: 0 <= k < |strikes| ==> strikes[k].damage == first * Pow(ChainDamageDecay, k)
    decreases |strikes|
  {
    if |strikes| > 0 {
      var j := strikes[0].index;
      var tail := strikes[1..];
      RunDamage(Hit(ts, j, first), struck + {ts[j].id}, first * ChainDamageDecay, tail);
      forall k | 1 <= k < |strikes|
        ensures strikes[k].damage == first * Pow(ChainDamageDecay, k)
      {
        assert strikes[k] == tail[k - 1];
        DecayStep(first, k);
      }
    }
  }

  lemma DecayStep(first: real, k: nat)
    requires k >= 1
    ensures first * ChainDamageDecay * Pow(ChainDamageDecay, k - 1) == first * Pow(ChainDamageDecay, k)
  {
    assert Pow(ChainDamageDecay, k) == ChainDamageDecay * Pow(ChainDamageDecay, k - 1);
  }

  /** No enemy is struck twice in a run. */
  lemma {:induction false} RunDistinct(ts: seq<Target>, struck: set<nat>, first: real, strikes: seq<Strike>)
    requires Run(ts, struck, first, strikes)
    ensures forall a, b :: 0 <= a < b < |strikes| && strikes[a].index < |ts| && strikes[b].index < |ts| ==>
      ts[strikes[a].index].id != ts[strikes[b].index].id
    decreases |strikes|
  {
    if |strikes| > 0 {
      var j := strikes[0].index;
      var ts1 := Hit(ts, j, first);
      var tail := strikes[1..];
      RunStrikesLiving(ts1, struck + {ts[j].id}, first * ChainDamageDecay, tail);
      RunDistinct(ts1, struck + {ts[j].id}, first * ChainDamageDecay, tail);
      forall a, b | 0 <= a < b < |strikes| && strikes[a].index < |ts| && strikes[b].index < |ts|
        ensures ts[strikes[a].index].id != ts[strikes[b].index].id
      {
        assert strikes[b] == tail[b - 1];
        if a > 0 {
          assert strikes[a] == tail[a - 1];
          assert ts1[strikes[a].index].id != ts1[strikes[b].index].id;
        }
      }
    }
  }

  /** Strike `k` of a run, for `0 < k`, lies strictly within the chain range
      of strike `k - 1`. */
  predicate Near(ts: seq<Target>, strikes: seq<Strike>, k: int)
  {
    0 < k < |strikes| && strikes[k].index < |ts| && strikes[k - 1].index < |ts|
    && StrictlyWithin(DistSq(ts[strikes[k].index].body.pos, ts[strikes[k - 1].index].body.pos), ChainRange)
  }

  /** Each jump of a run covers less than the chain range. */
  lemma {:induction false} RunJumpsAreShort(ts: seq<Target>, struck: set<nat>, first: real, strikes: seq<Strike>)
    requires Run(ts, struck, first, strikes)
    ensures forall k :: 0 < k < |strikes| ==> Near(ts, strikes, k)
    decreases |strikes|
  {
    if |strikes| > 0 {
      var j := strikes[0].index;
      var ts1 := Hit(ts, j, first);
      var tail := strikes[1..];
      RunJumpsAreShort(ts1, struck + {ts[j].id}, first * ChainDamageDecay, tail);
      forall k | 0 < k < |strikes| ensures Near(ts, strikes, k) {
        assert strikes[k] == tail[k - 1];
        if k > 1 {
          assert strikes[k - 1] == tail[k - 2];
          assert Near(ts1, tail, k - 1);
        }
      }
    }
  }

  /** The jumps after a hit on `ts[from]`: while jumps remain, the nearest
      reachable enemy takes the previous damage times 0.75 and becomes the
      next origin. */
  function Chain(ts: seq<Target>, from: nat, struck: set<nat>, damage: real, jumps: nat): (r: (seq<Target>, seq<Strike>))
    requires from < |ts|
    ensures |r.1| <= jumps && r.0 == Apply(ts, r.1)
    ensures Run(ts, struck, damage * ChainDamageDecay, r.1)
    ensures StartsNear(ts, ts[from].body.pos, r.1)
    ensures |r.1| > 0 ==> forall j :: 0 <= j < |ts| && Reachable(ts[from].body.pos, struck)(ts[j]) ==>
      D(ts, ts[from].body.pos, r.1[0].index) <= D(ts, ts[from].body.pos, j)
    ensures jumps > 0 && r.1 == [] ==> forall j :: 0 <= j < |ts| ==> !Reachable(ts[from].body.pos, struck)(ts[j])
    decreases jumps
  {
    if jumps == 0 then (ts, [])
    else
      match Closest(ts, ts[from].body.pos, Reachable(ts[from].body.pos, struck))
      case None => (ts, [])
      case Some(j) =>
        var d := damage * ChainDamageDecay;
        var ts1 := Hit(ts, j, d);
        var rest := Chain(ts1, j, struck + {ts[j].id}, d, jumps - 1);
        assert ([Strike(j, d)] + rest.1)[1..] == rest.1;
        (rest.0, [Strike(j, d)] + rest.1)
  }

  /** Whether the enemy at `pos` lies within 45 degrees of the aim. */
  predicate InCone(s: Shooter, pos: Vec, trig: Trig)
  {
    var diff := trig.atan2(pos.y - s.pos.y, pos.x - s.pos.x) - s.aimAngle;
    var abs := if diff < 0.0 then -diff else diff;
    Min(abs, Pi * 2.0 - abs) < FirstHitCone
  }

  /** The enemies the first bolt may strike: alive, at most 300 pixels
      away, and inside the aim cone. */
  function FirstReachable(s: Shooter, trig: Trig): Target -> bool
  {
    (t: Target) => t.body.alive && Within(DistSq(t.body.pos, s.pos), FirstHitRange) && InCone(s, t.body.pos, trig)
  }

  /** The first bolt hits `ts[i]` for `d`, and the chain jumps on from it. */
  function Bolt(ts: seq<Target>, i: nat, d: real): (r: (seq<Target>, seq<Strike>))
    requires i < |ts| && ts[i].body.alive
    ensures 0 < |r.1| <= 1 + ChainJumps && r.1[0].index == i && r.0 == Apply(ts, r.1)
    ensures Run(ts, {}, d, r.1)
  {
    var rest := Chain(Hit(ts, i, d), i, {ts[i].id}, d, ChainJumps);
    assert {} + {ts[i].id} == {ts[i].id};
    assert ([Strike(i, d)] + rest.1)[1..] == rest.1;
    (rest.0, [Strike(i, d)] + rest.1)
  }

  /** `ChainLightning.fire`: strike the nearest enemy the first bolt may
      reach for the full damage, then jump at most three times (the base
      table's count, whatever the level) to the nearest unstruck living
      enemy strictly within 60 pixels (again the base value) of the last
      one, each jump dealing 0.75 of the previous. */
  function ChainFire(s: Shooter, ts: seq<Target>, damage: real, trig: Trig): (r: (seq<Target>, seq<Strike>))
    ensures |r.1| <= 1 + ChainJumps && r.0 == Apply(ts, r.1)
    ensures Run(ts, {}, damage, r.1)
    ensures r.1 == [] <==> forall j :: 0 <= j < |ts| ==> !FirstReachable(s, trig)(ts[j])
    ensures r.1 != [] ==>
      (&& r.1[0].index < |ts| && FirstReachable(s, trig)(ts[r.1[0].index])
       && forall j :: 0 <= j < |ts| && FirstReachable(s, trig)(ts[j]) ==>
            D(ts, s.pos, r.1[0].index) <= D(ts, s.pos, j))
  {
    match Closest(ts, s.pos, FirstReachable(s, trig))
    case None => (ts, [])
    case Some(i) => Bolt(ts, i, damage)
  }

  /** What a run starting from an empty struck set amounts to: living
      enemies of the list, none twice, each jump short, the k-th strike for
      `first` times 0.75^k. */
  predicate Strikes(ts: seq<Target>, first: real, strikes: seq<Strike>)
  {
    && (forall k :: 0 <= k < |strikes| ==>
          strikes[k].index < |ts| && ts[strikes[k].index].body.alive
          && strikes[k].damage == first * Pow(ChainDamageDecay, k))
    && (forall a, b :: 0 <= a < b < |strikes| ==> strikes[a].index != strikes[b].index)
    && (forall k :: 0 < k < |strikes| ==> Near(ts, strikes, k))
  }

  lemma RunStrikes(ts: seq<Target>, first: real, strikes: seq<Strike>)
    requires Run(ts, {}, first, strikes)
    ensures Strikes(ts, first, strikes)
  {
    RunStrikesLiving(ts, {}, first, strikes);
    RunDamage(ts, {}, first, strikes);
    RunDistinct(ts, {}, first, strikes);
    RunJumpsAreShort(ts, {}, first, strikes);
    forall a, b | 0 <= a < b < |strikes| ensures strikes[a].index != strikes[b].index {
      assert ts[strikes[a].index].id != ts[strikes[b].index].id;
    }
  }

  /** Chain lightning strikes at most four living enemies, each at most
      once, every jump shorter than 60 pixels, the k-th for the bolt's
      damage times 0.75^k. */
  lemma ChainStrikesOnce(s: Shooter, ts: seq<Target>, damage: real, trig: Trig)
    ensures |ChainFire(s, ts, damage, trig).1| <= 4
    ensures Strikes(ts, damage, ChainFire(s, ts, damage, trig).1)
  {
    RunStrikes(ts, damage, ChainFire(s, ts, damage, trig).1);
  }

  /** Chain lightning keeps the enemy list's length, order, identities and
      positions, and an enemy it does not strike is left as it was. */
  lemma ChainLeavesOthers(s: Shooter, ts: seq<Target>, damage: real, trig: Trig)
    ensures var (after, strikes) := ChainFire(s, ts, damage, trig);
      && |after| == |ts|
      && (forall j :: 0 <= j < |ts| ==> after[j].id == ts[j].id && after[j].body.pos == ts[j].body.pos)
      && (forall j :: 0 <= j < |ts| && (forall k :: 0 <= k < |strikes| ==> strikes[k].index != j) ==> after[j] == ts[j])
  {
    ApplyFrame(ts, ChainFire(s, ts, damage, trig).1);
  }

  // ---------------------------------------------------------------------
  // `fire` and `update`

  /** `fire` for each weapon. Only the shotgun (one number per pellet) and
      the SMG (two) draw random numbers; chain lightning alone changes
      enemies; the rocket launcher raises after pushing its rockets whenever
      an effects system is attached, because it reads an undefined name. The
      burst rifle's `fire` does nothing: it shoots from `update`. */
  function Fire(w: Weapon, s: Shooter, enemies: seq<Target>, rng: Rng, effects: bool, trig: Trig): (v: Volley)
    ensures w.id != ChainLightning ==> v.enemies == enemies
    ensures w.id == ChainLightning ==> v.enemies == ChainFire(s, enemies, GetDamage(w, s) as real, trig).0
    ensures v.raised <==> w.id == RocketLauncher && effects
    ensures forall k :: 0 <= k < |v.shots| ==> v.shots[k].owner == P.PlayerOwned
  {
    match w.id
    case Pistol => Volley([PistolShot(w, s, trig)], enemies, 0, false)
    case Shotgun =>
      var pellets := Pellets(w, s, rng, trig);
      Volley(pellets, enemies, |pellets|, false)
    case Smg => Volley([SmgShot(w, s, rng(0), trig)], enemies, 2, false)
    case RocketLauncher => Volley(Rockets(w, s, enemies, trig), enemies, 0, effects)
    case LaserBeam => Volley([LaserShot(w, s, trig)], enemies, 0, false)
    case Ricochet => Volley([RicochetShot(w, s, trig)], enemies, 0, false)
    case WaveGun => Volley(seq(3, i => WaveShot(w, s, i, trig)), enemies, 0, false)
    case BurstRifle => Quiet(enemies)
    case OrbitalCannon => Volley(seq(8, i => OrbitalShot(w, s, i, trig)), enemies, 0, false)
    case NovaBurst => Volley(seq(10, i => NovaShot(w, s, i, trig)), enemies, 0, false)
    case ChainLightning => Volley([], ChainFire(s, enemies, GetDamage(w, s) as real, trig).0, 0, false)
    case Boomerang => Volley([BoomerangShot(w, s, trig)], enemies, 0, false)
  }

  /** Whether a weapon's cooldown has run out this frame with a target in
      sight. */
  predicate Ready(w: Weapon, dt: real, enemies: seq<Target>)
  {
    w.cooldown - dt <= 0.0 && |enemies| > 0
  }

  /** The fields no update changes. */
  predicate SameWeapon(w: Weapon, r: Weapon)
  {
    r.id == w.id && r.level == w.level && r.baseFireRate == w.baseFireRate && r.stats == w.stats
    && r.specials == w.specials && r.extra == w.extra
  }

  /** `Weapon.update`: the cooldown runs down by `dt`; a ready weapon fires
      once and then waits `1 / fireRate`, and with Double Tap one more
      random number is drawn for the delayed second volley. A volley that
      raises leaves the cooldown run down. */
  function Trigger(w: Weapon, dt: real, s: Shooter, enemies: seq<Target>, rng: Rng, effects: bool,
                   trig: Trig): (r: (Weapon, Volley))
    requires FireRate(w, s) > 0.0
    ensures SameWeapon(w, r.0) && r.0.burst == w.burst
    ensures !Ready(w, dt, enemies) ==> r.0.cooldown == w.cooldown - dt && r.1 == Quiet(enemies)
    ensures Ready(w, dt, enemies) ==> r.1.shots == Fire(w, s, enemies, rng, effects, trig).shots
    ensures Ready(w, dt, enemies) && !r.1.raised ==> r.0.cooldown * FireRate(w, s) == 1.0
    ensures r.1.raised ==> Ready(w, dt, enemies) && r.0.cooldown == w.cooldown - dt
  {
    if Ready(w, dt, enemies) then AfterVolley(w, dt, s, Fire(w, s, enemies, rng, effects, trig))
    else (w.(cooldown := w.cooldown - dt), Quiet(enemies))
  }

  /** What follows a volley in `Weapon.update`: a volley that raised leaves
      the cooldown run down; otherwise the weapon waits one period of its
      fire rate, and Double Tap draws one more random number. */
  function AfterVolley(w: Weapon, dt: real, s: Shooter, v: Volley): (r: (Weapon, Volley))
    requires FireRate(w, s) > 0.0
    ensures SameWeapon(w, r.0) && r.0.burst == w.burst
    ensures r.1.shots == v.shots && r.1.enemies == v.enemies && r.1.raised == v.raised
    ensures v.raised ==> r.0.cooldown == w.cooldown - dt && r.1 == v
    ensures !v.raised ==>
      r.0.cooldown * FireRate(w, s) == 1.0 && r.1.used == v.used + (if s.doubleTap then 1 else 0)
  {
    if v.raised then (w.(cooldown := w.cooldown - dt), v)
    else (w.(cooldown := 1.0 / FireRate(w, s)), v.(used := v.used + if s.doubleTap then 1 else 0))
  }

  /** `BurstRifle.update`: both timers run down; a ready rifle loads three
      shots whatever its projectile count and restarts its cooldown; a
      loaded rifle whose burst timer has run out fires one shot and waits
      0.08 s for the next. */
  function BurstUpdate(w: Weapon, dt: real, s: Shooter, enemies: seq<Target>, rng: Rng, trig: Trig): (r: (Weapon, Volley))
    requires FireRate(w, s) > 0.0
    ensures SameWeapon(w, r.0) && r.1.enemies == enemies && !r.1.raised && |r.1.shots| <= 1
    ensures Ready(w, dt, enemies) ==>
      r.0.cooldown * FireRate(w, s) == 1.0 && |r.1.shots| == 1 && r.0.burst == Burst(BurstShots - 1, BurstDelay)
    ensures !Ready(w, dt, enemies) ==> r.0.cooldown == w.cooldown - dt
    ensures !Ready(w, dt, enemies) ==>
      (|r.1.shots| == 1 <==> w.burst.count > 0 && w.burst.timer - dt <= 0.0)
    ensures |r.1.shots| == 1 ==> r.0.burst.timer == BurstDelay
    ensures r.0.burst.count == (if Ready(w, dt, enemies) then BurstShots else w.burst.count) - |r.1.shots|
  {
    var b := if Ready(w, dt, enemies) then Burst(BurstShots, 0.0) else Burst(w.burst.count, w.burst.timer - dt);
    var c := if Ready(w, dt, enemies) then 1.0 / FireRate(w, s) else w.cooldown - dt;
    if b.count > 0 && b.timer <= 0.0 then
      (w.(cooldown := c, burst := Burst(b.count - 1, BurstDelay)),
       Volley([BurstShot(w, s, rng(0), trig)], enemies, 1, false))
    else
      (w.(cooldown := c, burst := b), Quiet(enemies))
  }

  /** One weapon's update: the burst rifle has its own. */
  function Update(w: Weapon, dt: real, s: Shooter, enemies: seq<Target>, rng: Rng, effects: bool,
                  trig: Trig): (r: (Weapon, Volley))
    requires FireRate(w, s) > 0.0
    ensures SameWeapon(w, r.0)
    ensures w.id != ChainLightning ==> r.1.enemies == enemies
    ensures w.id == ChainLightning ==> r.1.enemies == enemies || r.1.enemies == ChainFire(s, enemies, GetDamage(w, s) as real, trig).0
    ensures r.1.raised ==> w.id == RocketLauncher && effects
  {
    if w.id == BurstRifle then BurstUpdate(w, dt, s, enemies, rng, trig)
    else Trigger(w, dt, s, enemies, rng, effects, trig)
  }

  /** The burst rifle's count never leaves [0, 3], and each update spends
      at most one shot. */
  lemma BurstCountStaysInRange(w: Weapon, dt: real, s: Shooter, enemies: seq<Target>, rng: Rng, trig: Trig)
    requires FireRate(w, s) > 0.0 && 0 <= w.burst.count <= BurstShots
    ensures 0 <= BurstUpdate(w, dt, s, enemies, rng, trig).0.burst.count <= BurstShots
  {
  }

  /** Shots of one burst are 0.08 s apart: right after a shot, an update
      shorter than the delay that does not start a new burst fires nothing. */
  lemma BurstShotsAreSpaced(w: Weapon, dt: real, s: Shooter, enemies: seq<Target>, rng: Rng, trig: Trig)
    requires FireRate(w, s) > 0.0
    requires w.burst.timer == BurstDelay && dt < BurstDelay && !Ready(w, dt, enemies)
    ensures BurstUpdate(w, dt, s, enemies, rng, trig).1.shots == []
  {
  }

  /** The number of shots each `fire` creates. The counts of the wave gun,
      orbital cannon and nova burst are fixed, whatever their level-scaled
      projectile count says. */
  lemma ShotCounts(w: Weapon, s: Shooter, enemies: seq<Target>, rng: Rng, effects: bool, trig: Trig)
    ensures var n := |Fire(w, s, enemies, rng, effects, trig).shots|;
      match w.id
      case Shotgun => n == (if w.stats.projectileCount < 0 then 0 else w.stats.projectileCount)
      case RocketLauncher => n == (if w.stats.projectileCount < 0 then 0 else w.stats.projectileCount)
      case WaveGun => n == 3
      case OrbitalCannon => n == 8
      case NovaBurst => n == 10
      case BurstRifle => n == 0
      case ChainLightning => n == 0
      case _ => n == 1
  {
  }

  /** The ricochet gun's shots bounce 7 times and the boomerang's turn at
      200 pixels at every level, although the constructor scales its own
      copies of those numbers with the level. */
  lemma LevelledFieldsAreIgnored(level: int, s: Shooter, enemies: seq<Target>, rng: Rng,
                                 effects: bool, trig: Trig)
    requires level >= 2
    ensures var w := NewWeapon(Ricochet, level);
      && Fire(w, s, enemies, rng, effects, trig).shots[0].maxBounces == RicochetBounces
      && w.extra.maxBounces > RicochetBounces
    ensures var w := NewWeapon(Boomerang, level);
      && Fire(w, s, enemies, rng, effects, trig).shots[0].boom.distance == BoomerangDistance
      && w.extra.distance > BoomerangDistance
  {
  }

  /** Chain lightning fires the same at every level: its damage multiplier
      has no per-level bonus, and the jump count and range it uses are the
      base values. */
  lemma ChainIgnoresLevel(l1: int, l2: int, s: Shooter, enemies: seq<Target>, rng: Rng,
                          effects: bool, trig: Trig)
    ensures Fire(NewWeapon(ChainLightning, l1), s, enemies, rng, effects, trig)
         == Fire(NewWeapon(ChainLightning, l2), s, enemies, rng, effects, trig)
  {
    var w1, w2 := NewWeapon(ChainLightning, l1), NewWeapon(ChainLightning, l2);
    assert w1.stats.damageMultiplier == Config(ChainLightning).damageMultiplier == w2.stats.damageMultiplier;
    var d := GetDamage(w1, s);
    assert GetDamage(w2, s) == d;
    assert Fire(w1, s, enemies, rng, effects, trig) == Volley([], ChainFire(s, enemies, d as real, trig).0, 0, false);
    assert Fire(w2, s, enemies, rng, effects, trig) == Volley([], ChainFire(s, enemies, d as real, trig).0, 0, false);
  }

  /** Pistol and shotgun shots carry the Bounce House and Explosive Rounds
      effects; a shotgun pellet gets half the bounces, rounded down, and
      half the blast radius. */
  lemma ItemsReachShots(w: Weapon, s: Shooter, enemies: seq<Target>, rng: Rng, effects: bool, trig: Trig)
    requires s.bounceHouse && s.explosiveRounds
    ensures w.id == Pistol ==>
      var p := Fire(w, s, enemies, rng, effects, trig).shots[0];
      (&& p.maxBounces == (if s.bounceHouseStacks == 0 then 1 else s.bounceHouseStacks)
       && p.fx.explosive && p.fx.explosionRadius == ExplosiveRoundsRadius
       && p.fx.explosionDamage == GetDamage(w, s) as real * ExplosiveRoundsDamage)
    ensures w.id == Shotgun && w.stats.projectileCount > 0 ==>
      var p := Fire(w, s, enemies, rng, effects, trig).shots[0];
      (&& p.maxBounces == (if s.bounceHouseStacks == 0 then 1 else s.bounceHouseStacks) / 2
       && p.fx.explosive && p.fx.explosionRadius == ExplosiveRoundsRadius * 0.5 && p.fx.piercing)
  {
    if w.id == Shotgun && w.stats.projectileCount > 0 {
      assert Fire(w, s, enemies, rng, effects, trig).shots[0]
          == Pellet(w, s, 0, w.stats.projectileCount, rng(0), trig);
    }
  }

  /** The rocket launcher pushes its rockets and then raises: the shots are
      there, but the cooldown is left run down; the error escapes the frame
      and ends the animation loop, so no later frame comes. */
  lemma RocketLauncherRaises(w: Weapon, dt: real, s: Shooter, enemies: seq<Target>, rng: Rng, trig: Trig)
    requires w.id == RocketLauncher && FireRate(w, s) > 0.0
    requires Ready(w, dt, enemies) && w.stats.projectileCount >= 1
    ensures var (w1, v) := Update(w, dt, s, enemies, rng, true, trig);
      && v.raised && |v.shots| == w.stats.projectileCount
      && (forall k :: 0 <= k < |v.shots| ==> v.shots[k].aim.homing && v.shots[k].fx.explosive)
      && Ready(w1, 0.0, enemies)
  {
  }

  // ---------------------------------------------------------------------
  // The weapon system and the factory

  /** `WeaponSystem.update`: each owned weapon in order updates only while
      the enemy list is non-empty; the shots are collected in order, and an
      exception ends the frame's weapon updates at once. */
  function SystemUpdate(ws: seq<Weapon>, dt: real, s: Shooter, enemies: seq<Target>, rng: Rng,
                        effects: bool, trig: Trig): (r: (seq<Weapon>, Volley))
    requires forall i :: 0 <= i < |ws| ==> FireRate(ws[i], s) > 0.0
    ensures |r.0| == |ws| && forall i :: 0 <= i < |ws| ==> SameWeapon(ws[i], r.0[i])
    ensures |enemies| == 0 ==> r == (ws, Quiet(enemies))
    ensures r.1.raised ==> effects
    decreases |ws|
  {
    if |ws| == 0 || |enemies| == 0 then (ws, Quiet(enemies))
    else
      var (w1, v) := Update(ws[0], dt, s, enemies, rng, effects, trig);
      if v.raised then ([w1] + ws[1..], v)
      else
        var (rest, v2) := SystemUpdate(ws[1..], dt, s, v.enemies, Skip(rng, v.used), effects, trig);
        ([w1] + rest, Volley(v.shots + v2.shots, v2.enemies, v.used + v2.used, v2.raised))
  }

  /** Weapons never add, remove or move enemies: after the weapon updates
      the list has the same identities at the same positions. */
  lemma {:induction false} SystemKeepsEnemies(ws: seq<Weapon>, dt: real, s: Shooter, enemies: seq<Target>,
                                              rng: Rng, effects: bool, trig: Trig)
    requires forall i :: 0 <= i < |ws| ==> FireRate(ws[i], s) > 0.0
    ensures var e := SystemUpdate(ws, dt, s, enemies, rng, effects, trig).1.enemies;
      |e| == |enemies| && forall j :: 0 <= j < |enemies| ==> e[j].id == enemies[j].id && e[j].body.pos == enemies[j].body.pos
    decreases |ws|
  {
    if |ws| > 0 && |enemies| > 0 {
      var (w1, v) := Update(ws[0], dt, s, enemies, rng, effects, trig);
      ApplyFrame(enemies, ChainFire(s, enemies, GetDamage(ws[0], s) as real, trig).1);
      if !v.raised {
        SystemKeepsEnemies(ws[1..], dt, s, v.enemies, Skip(rng, v.used), effects, trig);
      }
    }
  }

  /** `createWeapon`: the weapon a known key names, and a pistol at the
      requested level for any other key. */
  function CreateWeapon(name: string, level: int): (w: Weapon)
    ensures ParseId(name).None? ==> w == NewWeapon(Pistol, level)
    ensures ParseId(name).Some? ==> w == NewWeapon(ParseId(name).value, level)
  {
    match ParseId(name)
    case Some(id) => NewWeapon(id, level)
    case None => NewWeapon(Pistol, level)
  }

  /** Creating a weapon from its own key gives that weapon, and any key
      that is not a weapon's gives the pistol. */
  lemma CreateWeaponByName(id: WeaponId, other: string, level: int)
    requires forall k: WeaponId :: Name(k) != other
    ensures CreateWeapon(Name(id), level).id == id
    ensures CreateWeapon(other, level) == NewWeapon(Pistol, level)
  {
    NamesParse(id);
  }
}

