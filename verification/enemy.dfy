/** The `Enemy` entity of game/src/entities/Enemy.js: construction from the
    balance table, the two spawn placements, the hitbox contact test, and
    the per-behaviour update (tank aggro and wandering, shooter and boss
    timers, wave and zoomer despawn, wall bounce). */
module Enemy {
  import opened Common
  import opened Entity
  import opened Balance
  import P = Projectile

  /** State only some types carry. */
  datatype Extra =
    | NoExtra
    | TankExtra(isAggro: bool, randomDirection: Vec, directionChangeTimer: real)
    | ShooterExtra(shootTimer: real)
    | WaveExtra(amplitude: real, frequency: real, initialX: real, phase: real, trail: bool)
    | BossExtra(shootTimer: real, waveSpawnTimer: real)

  /** An enemy: its identity, body, type and wave, the enlarged hitbox,
      the stats it was made with, how it moves, and its per-type state. */
  datatype Enemy = Enemy(
    id: nat, body: Body, key: EnemyKey, wave: int, hitboxSize: real, stats: EnemyStats,
    behavior: Behavior, bounceOffWalls: bool, extra: Extra)

  /** Two states of the same enemy: everything but body and per-type state
      agrees. */
  predicate SameEnemy(e: Enemy, r: Enemy)
  {
    && r.id == e.id && r.key == e.key && r.wave == e.wave && r.hitboxSize == e.hitboxSize
    && r.stats == e.stats && r.behavior == e.behavior && r.bounceOffWalls == e.bounceOffWalls
  }

  /** Half-width of the band outside the canvas in which wave and zoomer
      enemies may still live. */
  const OffscreenMargin := 50.0
  /** Distance from the edges kept by `spawnInside`. */
  const InsidePadding := 30.0

  /** The type-specific state the constructor sets up, keyed on the type
      name (an unlisted name gets none). */
  function InitialExtra(key: EnemyKey, x: real, phaseRoll: Roll): Extra
  {
    match key
    case Tank => TankExtra(false, Origin, 0.0)
    case Shooter => ShooterExtra(0.0)
    case Wave => WaveExtra(Config(Wave).waveAmplitude, Config(Wave).waveFrequency, x,
                           phaseRoll * Pi * 2.0, false)
    case Boss => BossExtra(0.0, 0.0)
    case _ => NoExtra
  }

  /** The extra state belongs to the type. */
  predicate WellFormed(e: Enemy)
  {
    && e.behavior == Config(e.key).behavior
    && (e.key == Tank <==> e.extra.TankExtra?)
    && (e.key == Shooter <==> e.extra.ShooterExtra?)
    && (e.key == Wave <==> e.extra.WaveExtra?)
    && (e.key == Boss <==> e.extra.BossExtra?)
  }

  /** The constructor: size, hitbox and behaviour from the type's table entry
      (`basic`'s for an unknown name), the stats of that type at `wave`, full
      health, at rest, not bouncing. A wave enemy draws its phase. */
  function NewEnemy(id: nat, pos: Vec, key: EnemyKey, wave: int, phaseRoll: Roll): (e: Enemy)
    ensures WellFormed(e)
    ensures e.stats == GetEnemyStats(wave, key)
    ensures e.body.health == e.body.maxHealth == GetEnemyStats(wave, key).health
    ensures e.body.size == Config(key).size && e.hitboxSize == Config(key).size * 1.1
    ensures e.id == id && e.key == key && e.wave == wave && e.body.pos == pos
    ensures e.body.alive && e.body.vel == Origin && !e.bounceOffWalls
  {
    var c := Config(key);
    var s := GetEnemyStats(wave, key);
    var b := NewBody(pos);
    Enemy(id, b.(size := c.size, health := s.health, maxHealth := s.health), key, wave,
          c.size * 1.1, s, c.behavior, false, InitialExtra(key, pos.x, phaseRoll))
  }

  /** How many random numbers the constructor draws. */
  function ConstructorRolls(key: EnemyKey): nat { if key == Wave then 1 else 0 }

  /** `(dx / distance) * speed` per axis, with `distance` the square root of
      the squared length. A zero distance (NaN in the game) gives no motion. */
  function Heading(dx: real, dy: real, speed: real, trig: Trig): Vec
  {
    var d := trig.sqrt(dx * dx + dy * dy);
    if d == 0.0 then Origin else Vec(dx / d * speed, dy / d * speed)
  }

  /** `v` has length `speed` and points along (dx, dy) (against it for a
      negative speed). */
  ghost predicate Heads(v: Vec, dx: real, dy: real, speed: real)
  {
    && v.x * v.x + v.y * v.y == speed * speed
    && v.x * dy == v.y * dx
    && (v.x * dx + v.y * dy) * speed >= 0.0
  }

  /** With a true square root, the heading toward a point at positive
      distance is a velocity of exactly the given speed in that point's
      direction. */
  lemma HeadingHeads(dx: real, dy: real, speed: real, trig: Trig)
    requires SqrtSound(trig) && dx * dx + dy * dy > 0.0
    ensures Heads(Heading(dx, dy, speed, trig), dx, dy, speed)
  {
    var d := trig.sqrt(dx * dx + dy * dy);
    assert 0.0 < d && d * d == dx * dx + dy * dy;
    ScaledUnit(dx, dy, d, speed);
  }

  /** Dividing an offset by its length and scaling by `speed` gives a vector
      of length `speed` along the offset. */
  lemma ScaledUnit(dx: real, dy: real, d: real, speed: real)
    requires 0.0 < d && d * d == dx * dx + dy * dy
    ensures Heads(Vec(dx / d * speed, dy / d * speed), dx, dy, speed)
  {
    var ux, uy := dx / d, dy / d;
    assert ux * d == dx && uy * d == dy;
    UnitFromLength(ux, uy, d, dx, dy);
    ScaledLength(ux, uy, speed);
    Parallel(ux, uy, d, dx, dy, speed);
    SameSide(ux, uy, d, dx, dy, speed);
  }

  lemma ScaledLength(ux: real, uy: real, speed: real)
    requires ux * ux + uy * uy == 1.0
    ensures (ux * speed) * (ux * speed) + (uy * speed) * (uy * speed) == speed * speed
  {
    assert (ux * speed) * (ux * speed) + (uy * speed) * (uy * speed) == (ux * ux + uy * uy) * (speed * speed);
  }

  lemma Parallel(ux: real, uy: real, d: real, dx: real, dy: real, speed: real)
    requires 0.0 < d && ux * d == dx && uy * d == dy
    ensures (ux * speed) * dy == (uy * speed) * dx
  {
    assert ux * dy * d == dx * dy == uy * dx * d;
    assert ux * dy == uy * dx;
  }

  lemma SameSide(ux: real, uy: real, d: real, dx: real, dy: real, speed: real)
    requires 0.0 < d && ux * d == dx && uy * d == dy && d * d == dx * dx + dy * dy
    ensures ((ux * speed) * dx + (uy * speed) * dy) * speed >= 0.0
  {
    assert (ux * dx + uy * dy) * d == d * d by {
      assert ux * dx * d == dx * dx && uy * dy * d == dy * dy;
    }
    assert ux * dx + uy * dy == d;
    assert ((ux * speed) * dx + (uy * speed) * dy) * speed == d * (speed * speed);
    assert speed * speed >= 0.0;
  }

  lemma UnitFromLength(ux: real, uy: real, d: real, dx: real, dy: real)
    requires 0.0 < d && ux * d == dx && uy * d == dy && d * d == dx * dx + dy * dy
    ensures ux * ux + uy * uy == 1.0
  {
    SquareStrictMonotone(0.0, d);
    ScaleSquares(ux, uy, d, dx, dy);
    CancelPositive(ux * ux + uy * uy, d * d, dx * dx + dy * dy);
  }

  lemma ScaleSquares(ux: real, uy: real, d: real, dx: real, dy: real)
    requires ux * d == dx && uy * d == dy
    ensures dx * dx + dy * dy == (ux * ux + uy * uy) * (d * d)
  {
  }

  lemma CancelPositive(q: real, dd: real, s: real)
    requires 0.0 < dd && s == q * dd && dd == s
    ensures q == 1.0
  {
  }

  // ---------------------------------------------------------------------
  // Spawning

  /** A new enemy and the number of random numbers used to make it. */
  datatype Spawned = Spawned(enemy: Enemy, used: nat)

  /** The spawn edge of a roll: 0 top, 1 right, 2 bottom, 3 left. */
  function EdgeOf(r: Roll): (edge: int)
    ensures 0 <= edge <= 3
  {
    (r * 4.0).Floor
  }

  /** The point on an edge where `spawnFromEdge` first places an enemy. */
  function EdgePoint(edge: int, along: Roll, width: real, height: real, top: real): Vec
  {
    var areaHeight := height - top;
    if edge == 0 then Vec(along * width, top - 30.0)
    else if edge == 1 then Vec(width + 20.0, top + along * areaHeight)
    else if edge == 2 then Vec(along * width, height + 20.0)
    else Vec(-20.0, top + along * areaHeight)
  }

  /** Moves the coordinate along the edge into the central band
      [offset, offset + range) of the edge's length. */
  function IntoBand(p: Vec, edge: int, r: Roll, offset: real, range: real,
                    width: real, height: real, top: real): Vec
  {
    if edge == 0 || edge == 2 then p.(x := width * (offset + r * range))
    else p.(y := top + (height - top) * (offset + r * range))
  }

  /** The point a wave enemy first heads for, toward the centre with a
      random slant. */
  function WaveAim(edge: int, r: Roll, width: real, height: real, top: real): Vec
  {
    var areaHeight := height - top;
    var cx := width / 2.0;
    var cy := top + areaHeight / 2.0;
    if edge == 0 then Vec(cx + (r - 0.5) * width * 0.4, cy + areaHeight * 0.3)
    else if edge == 1 then Vec(cx - width * 0.2, cy + (r - 0.5) * areaHeight * 0.4)
    else if edge == 2 then Vec(cx + (r - 0.5) * width * 0.4, cy - areaHeight * 0.3)
    else Vec(cx + width * 0.2, cy + (r - 0.5) * areaHeight * 0.4)
  }

  /** The point a zoomer heads for, just past the opposite edge. */
  function ZoomerAim(edge: int, p: Vec, r: Roll, width: real, height: real, top: real): Vec
  {
    var areaHeight := height - top;
    if edge == 0 then Vec(p.x + (r - 0.5) * width * 0.3, height + 50.0)
    else if edge == 1 then Vec(-50.0, p.y + (r - 0.5) * areaHeight * 0.3)
    else if edge == 2 then Vec(p.x + (r - 0.5) * width * 0.3, top - 50.0)
    else Vec(width + 50.0, p.y + (r - 0.5) * areaHeight * 0.3)
  }

  /** `spawnFromEdge`: pick an edge and a point on it, construct, then give
      each type its initial motion. Trackers stand still; tanks wander in a
      random direction; wave enemies and zoomers are moved into the middle
      of the edge and cross the arena without bouncing; everything else
      heads inward and bounces. */
  function SpawnFromEdge(id: nat, width: real, height: real, top: real, wave: int, key: EnemyKey,
                         rng: Rng, trig: Trig): (s: Spawned)
    ensures WellFormed(s.enemy)
    ensures s.enemy.id == id && s.enemy.key == key && s.enemy.wave == wave && s.enemy.body.alive
    ensures s.enemy.bounceOffWalls <==> key != Tracker && key != Wave && key != Zoomer
    ensures key == Tracker ==> s.enemy.body.vel == Origin
    ensures key == Tank ==> s.enemy.body.vel == s.enemy.extra.randomDirection
  {
    var edge := EdgeOf(rng(0));
    var p := EdgePoint(edge, rng(1), width, height, top);
    var e := NewEnemy(id, p, key, wave, rng(2));
    var k := 2 + ConstructorRolls(key);
    var areaHeight := height - top;
    match key
    case Tracker => Spawned(e, k)
    case Tank =>
      var angle := rng(k) * Pi * 2.0;
      var v := Vec(trig.cos(angle) * e.stats.speed, trig.sin(angle) * e.stats.speed);
      Spawned(e.(body := e.body.(vel := v), extra := e.extra.(randomDirection := v),
                 bounceOffWalls := true), k + 1)
    case Wave =>
      var q := IntoBand(p, edge, rng(k), 0.2, 0.6, width, height, top);
      var aim := WaveAim(edge, rng(k + 1), width, height, top);
      Spawned(e.(body := e.body.(pos := q, vel := Heading(aim.x - q.x, aim.y - q.y, e.stats.speed, trig)),
                 extra := e.extra.(initialX := q.x)), k + 2)
    case Boss =>
      var aim := Vec(width / 2.0, top + areaHeight / 2.0);
      Spawned(e.(body := e.body.(vel := Heading(aim.x - p.x, aim.y - p.y, e.stats.speed, trig)),
                 bounceOffWalls := true), k)
    case Zoomer =>
      var q := IntoBand(p, edge, rng(k), 0.3, 0.4, width, height, top);
      var aim := ZoomerAim(edge, q, rng(k + 1), width, height, top);
      Spawned(e.(body := e.body.(pos := q, vel := Heading(aim.x - q.x, aim.y - q.y, e.stats.speed, trig))), k + 2)
    case _ =>
      var aim := Vec(rng(k) * width, top + rng(k + 1) * areaHeight);
      Spawned(e.(body := e.body.(vel := Heading(aim.x - p.x, aim.y - p.y, e.stats.speed, trig)),
                 bounceOffWalls := true), k + 2)
  }

  /** An edge spawn always starts outside the arena [0, width] x [top,
      height]: above the top, right of the right edge, below the bottom or
      left of the left edge. */
  lemma EdgeSpawnStartsOutside(id: nat, width: real, height: real, top: real, wave: int, key: EnemyKey,
                               rng: Rng, trig: Trig)
    requires 0.0 <= width && top <= height
    ensures var q := SpawnFromEdge(id, width, height, top, wave, key, rng, trig).enemy.body.pos;
      !(0.0 <= q.x <= width && top <= q.y <= height)
  {
  }

  /** Wave enemies enter through the middle 60% of their edge, zoomers
      through the middle 40%. */
  lemma EdgeSpawnBands(id: nat, width: real, height: real, top: real, wave: int, key: EnemyKey,
                       rng: Rng, trig: Trig)
    requires 0.0 <= width && top <= height && (key == Wave || key == Zoomer)
    ensures var q := SpawnFromEdge(id, width, height, top, wave, key, rng, trig).enemy.body.pos;
      var (lo, hi) := if key == Wave then (0.2, 0.8) else (0.3, 0.7);
      var edge := EdgeOf(rng(0));
      && (edge == 0 || edge == 2 ==> width * lo <= q.x <= width * hi)
      && (edge == 1 || edge == 3 ==> top + (height - top) * lo <= q.y <= top + (height - top) * hi)
  {
    var edge := EdgeOf(rng(0));
    var p := EdgePoint(edge, rng(1), width, height, top);
    var k := 2 + ConstructorRolls(key);
    var (lo, range) := if key == Wave then (0.2, 0.6) else (0.3, 0.4);
    IntoBandBounds(p, edge, rng(k), lo, range, width, height, top);
  }

  lemma IntoBandBounds(p: Vec, edge: int, r: Roll, offset: real, range: real,
                       width: real, height: real, top: real)
    requires 0.0 <= range && 0.0 <= width && top <= height
    ensures var q := IntoBand(p, edge, r, offset, range, width, height, top);
      && (edge == 0 || edge == 2 ==> width * offset <= q.x <= width * (offset + range))
      && (edge != 0 && edge != 2 ==>
            top + (height - top) * offset <= q.y <= top + (height - top) * (offset + range))
  {
    RollScales(r, range);
    if edge == 0 || edge == 2 {
      assert width * (offset + r * range) - width * offset == width * (r * range) >= 0.0;
      assert width * (offset + range) - width * (offset + r * range) == width * (range - r * range) >= 0.0;
    } else {
      var g := height - top;
      assert g * (offset + r * range) - g * offset == g * (r * range) >= 0.0;
      assert g * (offset + range) - g * (offset + r * range) == g * (range - r * range) >= 0.0;
    }
  }

  /** `spawnInside`: a uniformly placed point kept 30 pixels from every edge
      of the arena, then the constructor. */
  function SpawnInside(id: nat, width: real, height: real, top: real, wave: int, key: EnemyKey,
                       rng: Rng): (s: Spawned)
    ensures WellFormed(s.enemy)
    ensures s.enemy == NewEnemy(id, s.enemy.body.pos, key, wave, rng(2))
    ensures s.used == 2 + ConstructorRolls(key)
    ensures width >= 2.0 * InsidePadding ==> InsidePadding <= s.enemy.body.pos.x <= width - InsidePadding
    ensures height - top >= 2.0 * InsidePadding ==>
      top + InsidePadding <= s.enemy.body.pos.y <= height - InsidePadding
  {
    Spawned(NewEnemy(id, InsidePoint(width, height, top, rng), key, wave, rng(2)), 2 + ConstructorRolls(key))
  }

  /** The point `spawnInside` draws from the first two rolls. */
  function InsidePoint(width: real, height: real, top: real, rng: Rng): (p: Vec)
    ensures width >= 2.0 * InsidePadding ==> InsidePadding <= p.x <= width - InsidePadding
    ensures height - top >= 2.0 * InsidePadding ==> top + InsidePadding <= p.y <= height - InsidePadding
  {
    var w, h := width - InsidePadding * 2.0, height - top - InsidePadding * 2.0;
    assert w >= 0.0 ==> 0.0 <= rng(0) * w <= w by {
      if w >= 0.0 { RollScales(rng(0), w); }
    }
    assert h >= 0.0 ==> 0.0 <= rng(1) * h <= h by {
      if h >= 0.0 { RollScales(rng(1), h); }
    }
    Vec(InsidePadding + rng(0) * w, top + InsidePadding + rng(1) * h)
  }

  // ---------------------------------------------------------------------
  // Contact

  /** `checkCollision` of an enemy: its 10%-larger hitbox against the
      other entity's size. */
  predicate EnemyCollides(e: Enemy, other: Body)
  {
    StrictlyWithin(DistSq(e.body.pos, other.pos), (e.hitboxSize + other.size) / 2.0)
  }

  /** The enlarged hitbox catches every contact the plain size would. */
  lemma HitboxCoversBody(e: Enemy, other: Body)
    requires e.hitboxSize >= e.body.size
    requires Collides(e.body, other)
    ensures EnemyCollides(e, other)
  {
    var r1 := (e.body.size + other.size) / 2.0;
    var r2 := (e.hitboxSize + other.size) / 2.0;
    SquareMonotone(r1, r2);
  }

  // ---------------------------------------------------------------------
  // Walls

  /** `handleWallBounce`: only for bouncing enemies that are inside the
      arena grown by half their size. A touched side reverses that axis's
      velocity and clamps the centre back inside; a wandering tank adopts the
      reversed component as its wander direction. */
  function WallBounce(e: Enemy, width: real, height: real): (r: Enemy)
    ensures !e.bounceOffWalls || !InBounceArea(e, width, height) ==> r == e
    ensures e.bounceOffWalls && InBounceArea(e, width, height) ==>
      var half := e.body.size / 2.0;
      && (TouchesSide(e, width) ==>
            (&& r.body.vel.x == -e.body.vel.x
             && (half <= width - half ==> half <= r.body.pos.x <= width - half)))
      && (!TouchesSide(e, width) ==> r.body.vel.x == e.body.vel.x && r.body.pos.x == e.body.pos.x)
      && (TouchesTopOrBottom(e, height) ==>
            (&& r.body.vel.y == -e.body.vel.y
             && (UiBarHeight + half <= height - half ==> UiBarHeight + half <= r.body.pos.y <= height - half)))
      && (!TouchesTopOrBottom(e, height) ==> r.body.vel.y == e.body.vel.y && r.body.pos.y == e.body.pos.y)
    ensures r.(body := e.body, extra := e.extra) == e
    ensures r.body.alive == e.body.alive && r.body.health == e.body.health && r.body.size == e.body.size
    ensures e.extra.TankExtra? ==>
      (&& r.extra.TankExtra? && r.extra.isAggro == e.extra.isAggro
       && r.extra.directionChangeTimer == e.extra.directionChangeTimer)
    ensures !e.extra.TankExtra? ==> r.extra == e.extra
  {
    if !e.bounceOffWalls || !InBounceArea(e, width, height) then e
    else
      var half := e.body.size / 2.0;
      var tx := TouchesSide(e, width);
      var ty := TouchesTopOrBottom(e, height);
      var vel := Vec(if tx then -e.body.vel.x else e.body.vel.x,
                     if ty then -e.body.vel.y else e.body.vel.y);
      var pos := Vec(if tx then Clamp(half, width - half, e.body.pos.x) else e.body.pos.x,
                     if ty then Clamp(UiBarHeight + half, height - half, e.body.pos.y) else e.body.pos.y);
      var wandering := e.behavior == TankAI && e.extra.TankExtra? && !e.extra.isAggro;
      var extra := if wandering then
        e.extra.(randomDirection := Vec(if tx then vel.x else e.extra.randomDirection.x,
                                        if ty then vel.y else e.extra.randomDirection.y))
        else e.extra;
      e.(body := e.body.(vel := vel, pos := pos), extra := extra)
  }

  predicate InBounceArea(e: Enemy, width: real, height: real)
  {
    var half := e.body.size / 2.0;
    e.body.pos.x > -half && e.body.pos.x < width + half &&
    e.body.pos.y > UiBarHeight - half && e.body.pos.y < height + half
  }

  predicate TouchesSide(e: Enemy, width: real)
  {
    e.body.pos.x - e.body.size / 2.0 <= 0.0 || e.body.pos.x + e.body.size / 2.0 >= width
  }

  predicate TouchesTopOrBottom(e: Enemy, height: real)
  {
    e.body.pos.y - e.body.size / 2.0 <= UiBarHeight || e.body.pos.y + e.body.size / 2.0 >= height
  }

  predicate Offscreen(p: Vec, width: real, height: real)
  {
    p.x < -OffscreenMargin || p.x > width + OffscreenMargin ||
    p.y < -OffscreenMargin || p.y > height + OffscreenMargin
  }

  // ---------------------------------------------------------------------
  // Behaviours

  /** What one enemy update produces: the enemy itself, projectiles it
      fired, enemies it spawned, and the random numbers it drew. */
  datatype Step = Step(enemy: Enemy, shots: seq<P.Projectile>, spawned: seq<Enemy>, used: nat)

  /** `updateTracker`: head for a living player. */
  function TrackerStep(e: Enemy, player: Body, trig: Trig): (r: Enemy)
    ensures !player.alive ==> r == e
    ensures SameEnemy(e, r) && r.extra == e.extra && r.body == e.body.(vel := r.body.vel)
    ensures player.alive && DistSq(player.pos, e.body.pos) > 0.0 && SqrtSound(trig) ==>
      Heads(r.body.vel, player.pos.x - e.body.pos.x, player.pos.y - e.body.pos.y, e.stats.speed)
  {
    if !player.alive then e
    else
      var dx := player.pos.x - e.body.pos.x;
      var dy := player.pos.y - e.body.pos.y;
      var d := trig.sqrt(dx * dx + dy * dy);
      if d > 0.0 then
        assert SqrtSound(trig) && DistSq(player.pos, e.body.pos) > 0.0 ==>
          Heads(Heading(dx, dy, e.stats.speed, trig), dx, dy, e.stats.speed) by {
          if SqrtSound(trig) && DistSq(player.pos, e.body.pos) > 0.0 {
            HeadingHeads(dx, dy, e.stats.speed, trig);
          }
        }
        e.(body := e.body.(vel := Heading(dx, dy, e.stats.speed, trig)))
      else
        e
  }

  /** Whether a tank is aggressive this frame: the player is alive and no
      farther than the aggro radius. */
  predicate TankSeesPlayer(e: Enemy, player: Body)
  {
    player.alive && Within(DistSq(player.pos, e.body.pos), Config(Tank).aggroRadius)
  }

  /** `updateTank` up to the wall bounce: an aggressive tank charges at 1.5
      times its speed; otherwise its wander timer runs and, on expiry,
      restarts at 1 to 3 seconds with a fresh random direction, which it
      then follows. */
  function TankSteer(e: Enemy, dt: real, player: Body, rng: Rng, trig: Trig): (r: (Enemy, nat))
    requires e.extra.TankExtra?
    ensures r.0.extra.TankExtra? && r.0.extra.isAggro == TankSeesPlayer(e, player)
    ensures TankSeesPlayer(e, player) ==>
      r.0.body.vel == Heading(player.pos.x - e.body.pos.x, player.pos.y - e.body.pos.y, e.stats.speed * 1.5, trig)
      && r.0.extra.(isAggro := e.extra.isAggro) == e.extra && r.1 == 0
    ensures !TankSeesPlayer(e, player) ==>
      && r.0.body.vel == r.0.extra.randomDirection
      && (e.extra.directionChangeTimer - dt <= 0.0 ==>
            1.0 <= r.0.extra.directionChangeTimer < 3.0 && r.1 == 2)
      && (e.extra.directionChangeTimer - dt > 0.0 ==>
            r.0.extra.directionChangeTimer == e.extra.directionChangeTimer - dt &&
            r.0.extra.randomDirection == e.extra.randomDirection && r.1 == 0)
    ensures SameEnemy(e, r.0) && r.0.body == e.body.(vel := r.0.body.vel)
  {
    var x := e.extra;
    if TankSeesPlayer(e, player) then
      var v := Heading(player.pos.x - e.body.pos.x, player.pos.y - e.body.pos.y, e.stats.speed * 1.5, trig);
      (e.(body := e.body.(vel := v), extra := x.(isAggro := true)), 0)
    else
      var timer := x.directionChangeTimer - dt;
      if timer <= 0.0 then
        var angle := rng(1) * Pi * 2.0;
        var dir := Vec(trig.cos(angle) * e.stats.speed, trig.sin(angle) * e.stats.speed);
        (e.(body := e.body.(vel := dir),
            extra := TankExtra(false, dir, 1.0 + rng(0) * 2.0)), 2)
      else
        (e.(body := e.body.(vel := x.randomDirection),
            extra := x.(isAggro := false, directionChangeTimer := timer)), 0)
  }

  /** The projectile a shooter or boss fires at the player. */
  function EnemyShot(e: Enemy, player: Body, trig: Trig): (s: P.Projectile)
    ensures s.owner == P.EnemyOwned && s.body.alive && s.body.pos == e.body.pos
    ensures s.damage == Config(e.key).projectileDamage && s.body.size == Config(e.key).projectileSize
    ensures s.speed == Config(e.key).projectileSpeed && s.maxBounces == Config(e.key).projectileBounces
    ensures s.bounces == 0 && s.lifetime == P.DefaultLifetime && s.fx == P.NoEffects
  {
    var c := Config(e.key);
    var angle := trig.atan2(player.pos.y - e.body.pos.y, player.pos.x - e.body.pos.x);
    var s := P.NewProjectile(e.body.pos, angle, P.EnemyOwned, trig);
    s.(damage := c.projectileDamage, speed := c.projectileSpeed, maxBounces := c.projectileBounces,
       body := s.body.(size := c.projectileSize,
                       vel := Vec(trig.cos(angle) * c.projectileSpeed, trig.sin(angle) * c.projectileSpeed)))
  }

  /** A shoot timer's tick: minus `dt`; on reaching 0 it restarts at the
      cooldown and one shot is fired. */
  function Tick(timer: real, dt: real, cooldown: real): (r: (real, bool))
    ensures r.1 <==> timer - dt <= 0.0
    ensures r.0 == if r.1 then cooldown else timer - dt
  {
    if timer - dt <= 0.0 then (cooldown, true) else (timer - dt, false)
  }

  /** `updateShooter` before moving: bounce, then, while the player lives,
      run the shoot timer. */
  function ShooterStep(e: Enemy, dt: real, width: real, height: real, player: Body, trig: Trig): (r: Step)
    requires e.extra.ShooterExtra?
    ensures r.enemy.extra.ShooterExtra? && r.spawned == [] && r.used == 0
    ensures !player.alive ==> r.enemy.extra == e.extra && r.shots == []
    ensures player.alive ==>
      var t := e.extra.shootTimer - dt;
      && (t <= 0.0 ==> r.enemy.extra.shootTimer == Config(e.key).shootCooldown && |r.shots| == 1)
      && (t > 0.0 ==> r.enemy.extra.shootTimer == t && r.shots == [])
    ensures forall s :: s in r.shots ==>
      (&& s.owner == P.EnemyOwned && s.damage == Config(e.key).projectileDamage
       && s.maxBounces == Config(e.key).projectileBounces)
    ensures r.enemy == WallBounce(e, width, height).(extra := r.enemy.extra)
  {
    var b := WallBounce(e, width, height);
    if !player.alive then Step(b, [], [], 0)
    else
      var (timer, fire) := Tick(e.extra.shootTimer, dt, Config(e.key).shootCooldown);
      var e1 := b.(extra := ShooterExtra(timer));
      Step(e1, if fire then [EnemyShot(e1, player, trig)] else [], [], 0)
  }

  /** `updateWave` before moving: a sine drift in y, then death off
      screen. */
  function WaveStep(e: Enemy, dt: real, width: real, trig: Trig, height: real): (r: Enemy)
    requires e.extra.WaveExtra? && width != 0.0
    ensures r.body.alive == (e.body.alive && !Offscreen(r.body.pos, width, height))
    ensures r.body.pos.x == e.body.pos.x && r.body.vel == e.body.vel
    ensures r.(body := e.body) == e
  {
    var x := e.extra;
    var travelled := if e.body.pos.x >= x.initialX then e.body.pos.x - x.initialX else x.initialX - e.body.pos.x;
    var offset := trig.sin(travelled / width * x.frequency * Pi * 2.0 + x.phase) * x.amplitude;
    var b := e.body.(pos := e.body.pos.(y := e.body.pos.y + offset * dt));
    e.(body := if Offscreen(b.pos, width, height) then b.(alive := false) else b)
  }

  /** `updateZoomer` before moving: death off screen. */
  function ZoomerStep(e: Enemy, width: real, height: real): (r: Enemy)
    ensures r == e.(body := e.body.(alive := e.body.alive && !Offscreen(e.body.pos, width, height)))
  {
    if Offscreen(e.body.pos, width, height) then e.(body := e.body.(alive := false)) else e
  }

  /** The three wave enemies a boss releases, numbered from `nextId`, each at
      the boss's wave, placed around it and flying outward. */
  function BossBrood(e: Enemy, nextId: nat, rng: Rng, trig: Trig): (r: seq<Enemy>)
    ensures |r| == 3
    ensures forall i :: 0 <= i < 3 ==>
      && r[i].id == nextId + i && r[i].key == Wave && r[i].wave == e.wave
      && r[i].body.alive && WellFormed(r[i]) && !r[i].bounceOffWalls
  {
    [BroodMember(e, 0, nextId, rng, trig), BroodMember(e, 1, nextId + 1, Skip(rng, 2), trig),
     BroodMember(e, 2, nextId + 2, Skip(rng, 4), trig)]
  }

  /** The `i`-th wave enemy of a brood: two rolls, one for its angle and one
      for its phase; it flies mostly sideways. */
  function BroodMember(e: Enemy, i: nat, id: nat, rng: Rng, trig: Trig): (w: Enemy)
    ensures w.id == id && w.key == Wave && w.wave == e.wave
    ensures w.body.alive && WellFormed(w) && !w.bounceOffWalls
    ensures w.extra.initialX == w.body.pos.x
  {
    var angle := (Pi * 2.0 / 3.0) * i as real + rng(0) * 0.5;
    var dist := e.body.size + 20.0;
    var w := NewEnemy(id, Vec(e.body.pos.x + trig.cos(angle) * dist, e.body.pos.y + trig.sin(angle) * dist),
                      Wave, e.wave, rng(1));
    w.(body := w.body.(vel := Vec(trig.cos(angle) * w.stats.speed, trig.sin(angle) * w.stats.speed * 0.3)),
       extra := w.extra.(initialX := w.body.pos.x))
  }

  /** `updateBoss` before moving: bounce; then, only while the player lives,
      run the shoot timer and the brood timer. The brood is placed around
      the boss where the bounce has put it. */
  function BossStep(e: Enemy, dt: real, width: real, height: real, player: Body, nextId: nat,
                    rng: Rng, trig: Trig): (r: Step)
    requires e.extra.BossExtra?
    ensures r.enemy.extra.BossExtra?
    ensures !player.alive ==> r.enemy.extra == e.extra && r.shots == [] && r.spawned == []
    ensures player.alive ==>
      var t := e.extra.shootTimer - dt;
      var w := e.extra.waveSpawnTimer - dt;
      && (t <= 0.0 ==> r.enemy.extra.shootTimer == Config(e.key).shootCooldown && |r.shots| == 1)
      && (t > 0.0 ==> r.enemy.extra.shootTimer == t && r.shots == [])
      && (w <= 0.0 ==>
            r.enemy.extra.waveSpawnTimer == Config(e.key).waveSpawnCooldown
            && r.spawned == BossBrood(WallBounce(e, width, height), nextId, rng, trig))
      && (w > 0.0 ==> r.enemy.extra.waveSpawnTimer == w && r.spawned == [])
    ensures r.used == 2 * |r.spawned|
    ensures r.enemy == WallBounce(e, width, height).(extra := r.enemy.extra)
  {
    var b := WallBounce(e, width, height);
    if !player.alive then Step(b, [], [], 0)
    else
      var c := Config(e.key);
      var (shootTimer, fire) := Tick(e.extra.shootTimer, dt, c.shootCooldown);
      var (spawnTimer, brood) := Tick(e.extra.waveSpawnTimer, dt, c.waveSpawnCooldown);
      var e1 := b.(extra := BossExtra(shootTimer, spawnTimer));
      var spawned := if brood then BossBrood(b, nextId, rng, trig) else [];
      Step(e1, if fire then [EnemyShot(e1, player, trig)] else [], spawned, 2 * |spawned|)
  }

  /** `update`: the behaviour's step, then the base movement step. */
  function Update(e: Enemy, dt: real, width: real, height: real, player: Body, nextId: nat,
                  rng: Rng, trig: Trig): (r: Step)
    requires width != 0.0
    ensures SameEnemy(e, r.enemy)
    ensures r.enemy.body.health == e.body.health && r.enemy.body.size == e.body.size
    ensures !e.body.alive ==> !r.enemy.body.alive
    ensures WellFormed(e) ==> WellFormed(r.enemy)
    ensures forall i :: 0 <= i < |r.spawned| ==>
      (r.spawned[i].id == nextId + i && r.spawned[i].body.alive && r.spawned[i].key == Wave)
    ensures |r.spawned| <= 3
  {
    var s :=
      if e.behavior == TrackerAI then Step(TrackerStep(e, player, trig), [], [], 0)
      else if e.behavior == TankAI && e.extra.TankExtra? then
        var (t, used) := TankSteer(e, dt, player, rng, trig);
        Step(WallBounce(t, width, height), [], [], used)
      else if e.behavior == ShooterAI && e.extra.ShooterExtra? then ShooterStep(e, dt, width, height, player, trig)
      else if e.behavior == WaveAI && e.extra.WaveExtra? then Step(WaveStep(e, dt, width, trig, height), [], [], 0)
      else if e.behavior == BossAI && e.extra.BossExtra? then BossStep(e, dt, width, height, player, nextId, rng, trig)
      else if e.behavior == ZoomerAI then Step(ZoomerStep(e, width, height), [], [], 0)
      else Step(WallBounce(e, width, height), [], [], 0);
    s.(enemy := s.enemy.(body := Move(s.enemy.body, dt)))
  }

  /** The tank's aggro flag is the square-free form of "distance at most
      the aggro radius": for the true distance `d` to the player, the tank is
      aggressive exactly when the player is alive and `d <= 150`. */
  lemma TankAggroIsDistance(e: Enemy, player: Body, d: real)
    requires 0.0 <= d && d * d == DistSq(player.pos, e.body.pos)
    ensures TankSeesPlayer(e, player) <==> player.alive && d <= 150.0
  {
    SquareFreeComparison(d, DistSq(player.pos, e.body.pos), Config(Tank).aggroRadius);
  }

  /** After any update, a tank that is not aggressive moves along its wander
      direction, wall reflections included. */
  lemma WanderingTankFollowsDirection(e: Enemy, dt: real, width: real, height: real, player: Body,
                                      nextId: nat, rng: Rng, trig: Trig)
    requires width != 0.0
    requires WellFormed(e) && e.key == Tank
    ensures var r := Update(e, dt, width, height, player, nextId, rng, trig).enemy;
      !r.extra.isAggro ==> r.body.vel == r.extra.randomDirection
  {
    var (t, used) := TankSteer(e, dt, player, rng, trig);
    if !t.extra.isAggro {
      assert t.body.vel == t.extra.randomDirection;
      assert WallBounce(t, width, height).body.vel == WallBounce(t, width, height).extra.randomDirection;
    }
  }

  /** A newly built shooter fires on its first update while the player
      lives, because its timer starts at 0. */
  lemma ShooterFiresFirstFrame(id: nat, pos: Vec, wave: int, phaseRoll: Roll, dt: real,
                               width: real, height: real, player: Body, nextId: nat, rng: Rng, trig: Trig)
    requires width != 0.0
    requires 0.0 <= dt && player.alive
    ensures var e := NewEnemy(id, pos, Shooter, wave, phaseRoll);
      var r := Update(e, dt, width, height, player, nextId, rng, trig);
      |r.shots| == 1 && r.enemy.extra.shootTimer == 1.5
  {
  }

  /** A boss whose brood timer expires releases exactly three wave enemies
      of its own wave, with fresh consecutive identities. */
  lemma BossReleasesThree(e: Enemy, dt: real, width: real, height: real, player: Body, nextId: nat,
                          rng: Rng, trig: Trig)
    requires width != 0.0
    requires WellFormed(e) && e.key == Boss && player.alive && e.extra.waveSpawnTimer - dt <= 0.0
    ensures var r := Update(e, dt, width, height, player, nextId, rng, trig);
      && |r.spawned| == 3 && r.enemy.extra.waveSpawnTimer == 3.0
      && forall i :: 0 <= i < 3 ==>
        (r.spawned[i].key == Wave && r.spawned[i].wave == e.wave && r.spawned[i].id == nextId + i)
  {
  }

  /** The brood surrounds the boss where the wall bounce has put it: the
      `i`-th member sits `size + 20` away from the boss's new position, at
      the angle its roll gives. */
  lemma BroodSurroundsBouncedBoss(e: Enemy, dt: real, width: real, height: real, player: Body, nextId: nat,
                                  rng: Rng, trig: Trig, i: nat)
    requires e.extra.BossExtra? && player.alive && e.extra.waveSpawnTimer - dt <= 0.0 && i < 3
    ensures var r := BossStep(e, dt, width, height, player, nextId, rng, trig);
      var angle := (Pi * 2.0 / 3.0) * i as real + rng(2 * i) * 0.5;
      && |r.spawned| == 3
      && r.spawned[i].body.pos.x == r.enemy.body.pos.x + trig.cos(angle) * (e.body.size + 20.0)
      && r.spawned[i].body.pos.y == r.enemy.body.pos.y + trig.sin(angle) * (e.body.size + 20.0)
  {
    var b := WallBounce(e, width, height);
    var r := BossStep(e, dt, width, height, player, nextId, rng, trig);
    assert r.spawned == BossBrood(b, nextId, rng, trig);
    assert r.enemy.body == b.body && b.body.size == e.body.size;
    BroodAround(b, nextId, rng, trig, i);
  }

  /** The `i`-th member of a brood sits `size + 20` from the given body. */
  lemma BroodAround(c: Enemy, nextId: nat, rng: Rng, trig: Trig, i: nat)
    requires i < 3
    ensures var angle := (Pi * 2.0 / 3.0) * i as real + rng(2 * i) * 0.5;
      BossBrood(c, nextId, rng, trig)[i].body.pos
        == Vec(c.body.pos.x + trig.cos(angle) * (c.body.size + 20.0), c.body.pos.y + trig.sin(angle) * (c.body.size + 20.0))
  {
    assert Skip(rng, 2)(0) == rng(2) && Skip(rng, 4)(0) == rng(4);
  }

  /** Wave enemies and zoomers die once they are beyond 50 pixels past the
      canvas. */
  lemma DriftersDieOffscreen(e: Enemy, dt: real, width: real, height: real, player: Body, nextId: nat,
                             rng: Rng, trig: Trig)
    requires width != 0.0
    requires WellFormed(e) && (e.key == Zoomer || e.key == Wave)
    requires e.key == Zoomer ==> Offscreen(e.body.pos, width, height)
    requires e.key == Wave ==> e.body.pos.x < -OffscreenMargin || e.body.pos.x > width + OffscreenMargin
    ensures !Update(e, dt, width, height, player, nextId, rng, trig).enemy.body.alive
  {
  }
}
