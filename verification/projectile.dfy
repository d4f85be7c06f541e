/** The `Projectile` entity of game/src/entities/Projectile.js: its
    constructor defaults and its per-frame update (homing and auto-aim
    target choice, boomerang flight, wave motion, lifetime, and the
    wall-bounce or off-screen branch). */
module Projectile {
  import opened Common
  import opened Entity
  import Balance

  datatype Owner = PlayerOwned | EnemyOwned

  /** What a hit does besides damage. */
  datatype Effects = Effects(explosive: bool, explosionRadius: real, explosionDamage: real,
                             piercing: bool, smartBounce: bool, trail: bool)

  /** The sideways oscillation of wave-gun shots. */
  datatype WaveMotion = WaveMotion(on: bool, phase: real, amplitude: real, initialAngle: real,
                                   travelled: real)

  /** Boomerang flight: out for `distance` pixels, then back to `start`. */
  datatype Boomerang = Boomerang(on: bool, distance: real, start: Option<Vec>, returning: bool,
                                 travel: real)

  /** Auto-aim radius and homing. `target` holds an enemy identity. */
  datatype Aiming = Aiming(autoAimRadius: real, homing: bool, target: Option<nat>, strength: real)

  /** `hitEnemies` holds enemy identities (`Target.id`). */
  datatype Projectile = Projectile(
    body: Body, speed: real, damage: real, owner: Owner,
    bounces: int, maxBounces: int, lifetime: real, hitEnemies: set<nat>,
    fx: Effects, wave: WaveMotion, boom: Boomerang, aim: Aiming)

  const DefaultDamage := 25.0
  const DefaultLifetime := 5.0
  const DefaultAutoAimRadius := 25.0
  /** A returning boomerang closer than this to its launch point is caught. */
  const CatchRadius := 20.0
  /** A projectile that cannot bounce dies this far outside the canvas. */
  const DespawnMargin := 50.0

  const NoEffects := Effects(false, 0.0, 0.0, false, false, false)

  /** The constructor: base size and speed, 25 damage, five seconds to live,
      no bounces, no special behaviour, flying along `angle`. */
  function NewProjectile(pos: Vec, angle: real, owner: Owner, trig: Trig): (p: Projectile)
    ensures p.body.pos == pos && p.body.alive && p.owner == owner
    ensures p.body.size == Balance.ProjectileBaseSize && p.speed == Balance.ProjectileBaseSpeed
    ensures p.damage == DefaultDamage && p.lifetime == DefaultLifetime
    ensures p.bounces == 0 && p.maxBounces == 0
    ensures p.fx == NoEffects && !p.wave.on && !p.boom.on && !p.aim.homing
    ensures !p.boom.returning && p.hitEnemies == {} && p.aim.target.None? && p.boom.start.None?
    ensures p.aim.autoAimRadius == DefaultAutoAimRadius && p.wave.initialAngle == angle
  {
    var speed := Balance.ProjectileBaseSpeed;
    var b := NewBody(pos);
    Projectile(b.(size := Balance.ProjectileBaseSize,
                  vel := Vec(trig.cos(angle) * speed, trig.sin(angle) * speed)),
               speed, DefaultDamage, owner, 0, 0, DefaultLifetime, {},
               NoEffects,
               WaveMotion(false, 0.0, 0.0, angle, 0.0),
               Boomerang(false, 0.0, None, false, 0.0),
               Aiming(DefaultAutoAimRadius, false, None, 0.0))
  }

  /** The fields no part of `update` touches. */
  predicate SameKind(p: Projectile, r: Projectile)
  {
    r.speed == p.speed && r.damage == p.damage && r.owner == p.owner &&
    r.maxBounces == p.maxBounces && r.fx == p.fx && r.body.size == p.body.size &&
    r.body.health == p.body.health
  }

  // ---------------------------------------------------------------------
  // Homing and auto-aim

  /** The first `while` of the homing turn: subtract full turns until the
      angle is at most pi. */
  function WrapDown(a: real): (r: real)
    ensures r <= Pi
    ensures a <= Pi ==> r == a
    ensures -Pi < a ==> -Pi < r
    decreases (a - Pi).Floor
  {
    if a > Pi then WrapDown(a - 2.0 * Pi) else a
  }

  /** The second `while`: add full turns until the angle is at least -pi. */
  function WrapUp(a: real): (r: real)
    ensures -Pi <= r
    ensures -Pi <= a ==> r == a
    ensures a <= Pi ==> r <= Pi
    decreases (-Pi - a).Floor
  {
    if a < -Pi then WrapUp(a + 2.0 * Pi) else a
  }

  /** The turn normalised into [-pi, pi]; an angle already there is kept. */
  function WrapAngle(a: real): (r: real)
    ensures -Pi <= r <= Pi
    ensures -Pi <= a <= Pi ==> r == a
  {
    WrapUp(WrapDown(a))
  }

  /** A homing target still counts while its enemy is in the list, alive,
      and has positive health. An enemy no longer in the list was removed
      because it died. */
  predicate ValidTarget(enemies: seq<Target>, id: nat)
  {
    match Find(enemies, id)
    case Some(j) => enemies[j].body.alive && enemies[j].body.health > 0.0
    case None => false
  }

  /** The target after the homing re-selection: the current one if it is
      still valid, else the nearest alive enemy, else none. */
  function Retarget(p: Projectile, enemies: seq<Target>): (r: Option<nat>)
    ensures p.aim.target.Some? && ValidTarget(enemies, p.aim.target.value) ==> r == p.aim.target
    ensures !(p.aim.target.Some? && ValidTarget(enemies, p.aim.target.value)) ==>
      (r.None? <==> forall j :: 0 <= j < |enemies| ==> !enemies[j].body.alive)
    ensures r.Some? ==> exists j :: 0 <= j < |enemies| && enemies[j].id == r.value && enemies[j].body.alive
  {
    if p.aim.target.Some? && ValidTarget(enemies, p.aim.target.value) then
      var j := Find(enemies, p.aim.target.value).value;
      assert enemies[j].id == p.aim.target.value;
      p.aim.target
    else
      match Closest(enemies, p.body.pos, (t: Target) => t.body.alive)
      case Some(j) => Some(enemies[j].id)
      case None => None
  }

  /** The homing turn toward `aim`: at most `strength * dt` radians per
      frame, keeping the speed. */
  function Steer(p: Projectile, aim: Vec, dt: real, trig: Trig): Vec
  {
    var targetAngle := trig.atan2(aim.y - p.body.pos.y, aim.x - p.body.pos.x);
    var current := trig.atan2(p.body.vel.y, p.body.vel.x);
    var turn := p.aim.strength * dt;
    var angle := current + Min(Max(WrapAngle(targetAngle - current), -turn), turn);
    Vec(trig.cos(angle) * p.speed, trig.sin(angle) * p.speed)
  }

  /** Whether the auto-aim branch runs: player-owned, not piercing, not
      homing, alive. */
  predicate AutoAims(p: Projectile)
  {
    p.owner == PlayerOwned && !p.fx.piercing && !p.aim.homing && p.body.alive
  }

  /** Enemies the auto-aim considers: alive and strictly closer than the
      projectile's auto-aim radius. */
  function AutoAimFilter(p: Projectile): Target -> bool
  {
    (t: Target) => t.body.alive && StrictlyWithin(DistSq(t.body.pos, p.body.pos), p.aim.autoAimRadius)
  }

  /** The steering part of `update`. A homing projectile re-targets and
      turns; otherwise an auto-aiming one snaps toward the nearest alive
      enemy strictly inside its radius, if there is one. Only the velocity
      and the homing target change. */
  function Aim(p: Projectile, enemies: seq<Target>, dt: real, trig: Trig): (r: Projectile)
    ensures p.aim.homing && p.body.alive ==> r.aim.target == Retarget(p, enemies)
    ensures !(p.aim.homing && p.body.alive) ==> r.aim.target == p.aim.target
    ensures !(p.aim.homing && p.body.alive) && !AutoAims(p) ==> r == p
    ensures AutoAims(p) && Closest(enemies, p.body.pos, AutoAimFilter(p)).None? ==> r == p
    ensures r.body.pos == p.body.pos && r.body.alive == p.body.alive
    ensures r.aim.(target := p.aim.target) == p.aim
    ensures SameKind(p, r) && r.lifetime == p.lifetime && r.bounces == p.bounces
    ensures r.boom == p.boom && r.wave == p.wave && r.hitEnemies == p.hitEnemies
  {
    if p.aim.homing && p.body.alive then
      var target := Retarget(p, enemies);
      var p1 := p.(aim := p.aim.(target := target));
      match target
      case Some(id) =>
        (match Find(enemies, id)
         case Some(j) => p1.(body := p1.body.(vel := Steer(p1, enemies[j].body.pos, dt, trig)))
         case None => p1)
      case None => p1
    else if AutoAims(p) then
      match Closest(enemies, p.body.pos, AutoAimFilter(p))
      case Some(j) =>
        var e := enemies[j].body.pos;
        var angle := trig.atan2(e.y - p.body.pos.y, e.x - p.body.pos.x);
        p.(body := p.body.(vel := Vec(trig.cos(angle) * p.speed, trig.sin(angle) * p.speed)))
      case None => p
    else p
  }

  /** The auto-aim radius is a strict bound: an enemy exactly on the circle
      (or farther) never attracts the projectile, and a radius of 0 or less
      never attracts it. */
  lemma AutoAimIsStrict(p: Projectile, enemies: seq<Target>, d: real, j: nat)
    requires j < |enemies| && 0.0 <= d && d * d == DistSq(enemies[j].body.pos, p.body.pos)
    ensures AutoAimFilter(p)(enemies[j]) <==> enemies[j].body.alive && d < p.aim.autoAimRadius
  {
    SquareFreeComparison(d, DistSq(enemies[j].body.pos, p.body.pos), p.aim.autoAimRadius);
  }

  // ---------------------------------------------------------------------
  // Boomerang

  predicate Boomerangs(p: Projectile) { p.boom.on && p.owner == PlayerOwned }

  /** The boomerang part of `update`. The second result is true when the
      projectile was caught near its launch point, which ends the update. */
  function BoomerangStep(p: Projectile, dt: real, trig: Trig): (r: (Projectile, bool))
    ensures !Boomerangs(p) ==> r == (p, false)
    ensures Boomerangs(p) ==>
      && r.0.boom.travel == p.boom.travel + p.speed * dt
      && r.0.boom.returning == (p.boom.returning || r.0.boom.travel >= p.boom.distance)
      && r.0.hitEnemies == (if !p.boom.returning && r.0.boom.returning then {} else p.hitEnemies)
      && (r.1 <==> r.0.boom.returning && p.boom.start.Some? &&
                   StrictlyWithin(DistSq(p.boom.start.value, p.body.pos), CatchRadius))
    ensures r.1 ==> !r.0.body.alive
    ensures !r.1 ==> r.0.body.alive == p.body.alive
    ensures r.0.body.pos == p.body.pos
    ensures p.boom.returning ==> r.0.boom.returning
    ensures r.0.hitEnemies <= p.hitEnemies
    ensures SameKind(p, r.0) && r.0.lifetime == p.lifetime && r.0.bounces == p.bounces
    ensures r.0.boom.(travel := p.boom.travel, returning := p.boom.returning) == p.boom
    ensures r.0.wave == p.wave && r.0.aim == p.aim
  {
    if Boomerangs(p) then
      var travel := p.boom.travel + p.speed * dt;
      var flip := !p.boom.returning && travel >= p.boom.distance;
      var p1 := p.(boom := p.boom.(travel := travel, returning := p.boom.returning || flip),
                   hitEnemies := if flip then {} else p.hitEnemies);
      if p1.boom.returning && p1.boom.start.Some? then
        var home := p1.boom.start.value;
        if StrictlyWithin(DistSq(home, p1.body.pos), CatchRadius) then
          (p1.(body := p1.body.(alive := false)), true)
        else
          var angle := trig.atan2(home.y - p1.body.pos.y, home.x - p1.body.pos.x);
          (p1.(body := p1.body.(vel := Vec(trig.cos(angle) * p1.speed, trig.sin(angle) * p1.speed))), false)
      else (p1, false)
    else (p, false)
  }

  // ---------------------------------------------------------------------
  // Wave motion, movement and lifetime

  /** The wave-motion part of `update`: advance the travelled distance and
      set the velocity to the base direction plus a sideways sine term. */
  function WaveStep(p: Projectile, trig: Trig, dt: real): (r: Projectile)
    ensures !p.wave.on ==> r == p
    ensures p.wave.on ==> r.wave == p.wave.(travelled := p.wave.travelled + p.speed * dt)
    ensures r.body.pos == p.body.pos && r.body.alive == p.body.alive
    ensures SameKind(p, r) && r.lifetime == p.lifetime && r.bounces == p.bounces
    ensures r.boom == p.boom && r.aim == p.aim && r.hitEnemies == p.hitEnemies
  {
    if p.wave.on then
      var travelled := p.wave.travelled + p.speed * dt;
      var offset := trig.sin(travelled * 0.03 + p.wave.phase) * p.wave.amplitude;
      var a := p.wave.initialAngle;
      var perp := a + Pi / 2.0;
      p.(wave := p.wave.(travelled := travelled),
         body := p.body.(vel := Vec(trig.cos(a) * p.speed + trig.cos(perp) * offset * 0.03,
                                    trig.sin(a) * p.speed + trig.sin(perp) * offset * 0.03)))
    else p
  }

  // ---------------------------------------------------------------------
  // Walls

  predicate CanBounce(p: Projectile) { p.maxBounces > 0 && p.bounces < p.maxBounces }

  predicate TouchesX(p: Projectile, width: real)
  {
    p.body.pos.x - p.body.size / 2.0 <= 0.0 || p.body.pos.x + p.body.size / 2.0 >= width
  }

  predicate TouchesY(p: Projectile, height: real)
  {
    p.body.pos.y - p.body.size / 2.0 <= 0.0 || p.body.pos.y + p.body.size / 2.0 >= height
  }

  /** The bounce branch: each touched axis reverses its velocity, is clamped
      back inside [half, dimension - half] and counts one bounce, so a
      corner counts two. The top wall is y = 0. */
  function WallBounce(p: Projectile, width: real, height: real): (r: Projectile)
    ensures r.bounces == p.bounces + (if TouchesX(p, width) then 1 else 0) + (if TouchesY(p, height) then 1 else 0)
    ensures r.body.vel.x == (if TouchesX(p, width) then -p.body.vel.x else p.body.vel.x)
    ensures r.body.vel.y == (if TouchesY(p, height) then -p.body.vel.y else p.body.vel.y)
    ensures !TouchesX(p, width) ==> r.body.pos.x == p.body.pos.x
    ensures !TouchesY(p, height) ==> r.body.pos.y == p.body.pos.y
    ensures var half := p.body.size / 2.0;
      half <= width - half ==> half <= r.body.pos.x <= width - half
    ensures var half := p.body.size / 2.0;
      half <= height - half ==> half <= r.body.pos.y <= height - half
    ensures SameKind(p, r) && r.lifetime == p.lifetime && r.body.alive == p.body.alive
    ensures r.boom == p.boom && r.aim == p.aim && r.wave == p.wave && r.hitEnemies == p.hitEnemies
  {
    var half := p.body.size / 2.0;
    var tx := TouchesX(p, width);
    var ty := TouchesY(p, height);
    var vel := Vec(if tx then -p.body.vel.x else p.body.vel.x,
                   if ty then -p.body.vel.y else p.body.vel.y);
    var pos := Vec(if tx then Clamp(half, width - half, p.body.pos.x) else p.body.pos.x,
                   if ty then Clamp(half, height - half, p.body.pos.y) else p.body.pos.y);
    p.(bounces := p.bounces + (if tx then 1 else 0) + (if ty then 1 else 0),
       body := p.body.(vel := vel, pos := pos))
  }

  predicate OutsideMargin(pos: Vec, width: real, height: real)
  {
    pos.x < -DespawnMargin || pos.x > width + DespawnMargin ||
    pos.y < -DespawnMargin || pos.y > height + DespawnMargin
  }

  /** The end of `update` after the movement step: run down the lifetime
      (dying ends the update), then bounce if bounces remain, else die
      outside the margin. */
  function AfterMove(p: Projectile, dt: real, width: real, height: real): (r: Projectile)
    ensures r.lifetime == p.lifetime - dt
    ensures p.lifetime - dt <= 0.0 ==> !r.body.alive && r.body.pos == p.body.pos && r.bounces == p.bounces
    ensures p.lifetime - dt > 0.0 && CanBounce(p) ==>
      r == WallBounce(p, width, height).(lifetime := p.lifetime - dt)
    ensures p.lifetime - dt > 0.0 && !CanBounce(p) ==>
      && r.body.pos == p.body.pos && r.body.vel == p.body.vel && r.bounces == p.bounces
      && r.body.alive == (p.body.alive && !OutsideMargin(p.body.pos, width, height))
    ensures !p.body.alive ==> !r.body.alive
    ensures SameKind(p, r)
    ensures r.boom == p.boom && r.aim == p.aim && r.wave == p.wave && r.hitEnemies == p.hitEnemies
  {
    var p1 := p.(lifetime := p.lifetime - dt);
    if p1.lifetime <= 0.0 then p1.(body := p1.body.(alive := false))
    else if CanBounce(p1) then WallBounce(p1, width, height)
    else if OutsideMargin(p1.body.pos, width, height) then p1.(body := p1.body.(alive := false))
    else p1
  }

  /** `update`, whole. */
  function Update(p: Projectile, dt: real, width: real, height: real,
                  enemies: seq<Target>, trig: Trig): Projectile
  {
    var aimed := Aim(p, enemies, dt, trig);
    var (flown, caught) := BoomerangStep(aimed, dt, trig);
    if caught then flown
    else
      var waved := WaveStep(flown, trig, dt);
      AfterMove(waved.(body := Move(waved.body, dt)), dt, width, height)
  }

  /** What an update keeps: it never revives, never resets the boomerang's
      return, only ever shrinks the hit-set, leaves owner, damage, effects
      and the bounce limit alone, and keeps bounces at most one past the
      limit once they are. */
  lemma UpdateKeeps(p: Projectile, dt: real, width: real, height: real, enemies: seq<Target>, trig: Trig)
    ensures var r := Update(p, dt, width, height, enemies, trig);
      && (!p.body.alive ==> !r.body.alive)
      && (p.boom.returning ==> r.boom.returning)
      && r.hitEnemies <= p.hitEnemies
      && SameKind(p, r)
      && (p.bounces <= p.maxBounces + 1 ==> r.bounces <= r.maxBounces + 1)
      && p.bounces <= r.bounces
  {
    var aimed := Aim(p, enemies, dt, trig);
    var (flown, caught) := BoomerangStep(aimed, dt, trig);
    if !caught {
      var waved := WaveStep(flown, trig, dt);
      var moved := waved.(body := Move(waved.body, dt));
      assert SameKind(p, moved);
    }
  }

  /** Unless a boomerang was caught, an update runs the lifetime down by
      exactly `dt`, and a projectile whose lifetime runs out is dead. */
  lemma UpdateRunsLifetime(p: Projectile, dt: real, width: real, height: real, enemies: seq<Target>, trig: Trig)
    ensures var r := Update(p, dt, width, height, enemies, trig);
      var caught := BoomerangStep(Aim(p, enemies, dt, trig), dt, trig).1;
      && (caught ==> r.lifetime == p.lifetime && !r.body.alive)
      && (!caught ==> r.lifetime == p.lifetime - dt)
      && (r.lifetime <= 0.0 ==> !r.body.alive)
  {
  }

  /** A projectile that may still bounce ends any frame it survives inside
      the canvas, provided the canvas is at least its size across. */
  lemma BouncingStaysInside(p: Projectile, dt: real, width: real, height: real, enemies: seq<Target>, trig: Trig)
    requires p.body.size <= width && p.body.size <= height
    requires CanBounce(p) && p.lifetime - dt > 0.0
    requires !Boomerangs(p)
    ensures var r := Update(p, dt, width, height, enemies, trig);
      var half := p.body.size / 2.0;
      half <= r.body.pos.x <= width - half && half <= r.body.pos.y <= height - half
  {
  }

  /** A corner hit with one bounce left counts two bounces, one past the
      limit. */
  lemma CornerOvershoot(trig: Trig)
    ensures var p := NewProjectile(Vec(1.0, 1.0), 0.0, PlayerOwned, trig).(maxBounces := 1);
      WallBounce(p, 800.0, 550.0).bounces == 2 == p.maxBounces + 1
  {
  }
}
