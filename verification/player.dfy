/** The `Player` entity of game/src/entities/Player.js: eight-way movement
    from held keys, the aim angle, and clamping into the arena. */
module Player {
  import opened Common
  import opened Entity
  import Balance

  datatype Player = Player(body: Body, speed: real, aimAngle: real)

  /** Which direction groups are held: each is "arrow key or its WASD
      letter". */
  datatype Held = Held(left: bool, right: bool, up: bool, down: bool)

  const NoKeys := Held(false, false, false, false)

  /** `1 / Math.sqrt(2)` as the double the game computes. */
  const DiagonalFactor := 0.7071067811865475

  /** The constructor: player size and speed, full health of the base
      value, aiming along angle 0. */
  function NewPlayer(pos: Vec): (p: Player)
    ensures p.body.pos == pos && p.body.vel == Origin && p.body.alive
    ensures p.body.size == Balance.PlayerSize && p.speed == Balance.PlayerBaseSpeed
    ensures p.body.health == p.body.maxHealth == Balance.PlayerBaseHealth
    ensures p.aimAngle == 0.0
  {
    var b := NewBody(pos);
    Player(b.(size := Balance.PlayerSize, health := Balance.PlayerBaseHealth,
              maxHealth := Balance.PlayerBaseHealth),
           Balance.PlayerBaseSpeed, 0.0)
  }

  /** The velocity the held keys ask for: reset to zero, then left, right,
      up, down in that order (so a later key overrides an earlier one), then
      both components scaled down when both are non-zero. */
  function KeyVelocity(held: Held, speed: real): (v: Vec)
  {
    var vx := if held.right then speed else if held.left then -speed else 0.0;
    var vy := if held.down then speed else if held.up then -speed else 0.0;
    if vx != 0.0 && vy != 0.0 then Vec(vx * DiagonalFactor, vy * DiagonalFactor) else Vec(vx, vy)
  }

  /** `update`: new velocity from the keys, aim at the mouse if there is one,
      one movement step, then clamp the centre so the square stays inside
      [0, width] x [top, height]. */
  function Update(p: Player, dt: real, held: Held, mouse: Option<Vec>, trig: Trig,
                  width: real, height: real, top: real): (r: Player)
    ensures r.body.vel == KeyVelocity(held, p.speed)
    ensures mouse.None? ==> r.aimAngle == p.aimAngle
    ensures var half := p.body.size / 2.0;
      half <= width - half ==> half <= r.body.pos.x <= width - half
    ensures var half := p.body.size / 2.0;
      top + half <= height - half ==> top + half <= r.body.pos.y <= height - half
    ensures r.body.(pos := p.body.pos, vel := p.body.vel) == p.body
    ensures r.speed == p.speed
  {
    var aim := match mouse
      case Some(m) => trig.atan2(m.y - p.body.pos.y, m.x - p.body.pos.x)
      case None => p.aimAngle;
    var moved := Move(p.body.(vel := KeyVelocity(held, p.speed)), dt);
    var half := p.body.size / 2.0;
    var clamped := Vec(Clamp(half, width - half, moved.pos.x),
                       Clamp(top + half, height - half, moved.pos.y));
    Player(moved.(pos := clamped), p.speed, aim)
  }

  /** The key rules for a positive speed: no keys means standing still;
      right beats left and down beats up; a single axis moves at full speed
      and a diagonal scales each component by the factor. */
  lemma KeyVelocityRules(held: Held, speed: real)
    requires speed > 0.0
    ensures held == NoKeys ==> KeyVelocity(held, speed) == Origin
    ensures held.left && held.right ==> KeyVelocity(held, speed).x > 0.0
    ensures held.up && held.down ==> KeyVelocity(held, speed).y > 0.0
    ensures (held.left || held.right) != (held.up || held.down) ==>
      var v := KeyVelocity(held, speed); v.x * v.x + v.y * v.y == speed * speed
    ensures (held.left || held.right) && (held.up || held.down) ==>
      var v := KeyVelocity(held, speed);
      (v.x == speed * DiagonalFactor || v.x == -speed * DiagonalFactor) &&
      (v.y == speed * DiagonalFactor || v.y == -speed * DiagonalFactor)
  {
  }

  /** The diagonal factor is 1/sqrt(2) up to the rounding of a double: twice
      its square is within 1e-15 of 1, so a diagonal move has speed
      `speed` to within that relative error. */
  lemma DiagonalFactorIsInverseRootTwo()
    ensures -0.000000000000001 < 2.0 * DiagonalFactor * DiagonalFactor - 1.0 < 0.000000000000001
  {
  }

  /** A player with no keys held, already inside the arena, stays put:
      clamping is the identity on positions that satisfy it. */
  lemma StandingStillInsideIsStable(p: Player, dt: real, trig: Trig,
                                    width: real, height: real, top: real)
    requires var half := p.body.size / 2.0;
      half <= p.body.pos.x <= width - half && top + half <= p.body.pos.y <= height - half
    ensures Update(p, dt, NoKeys, None, trig, width, height, top).body.pos == p.body.pos
    ensures Update(p, dt, NoKeys, None, trig, width, height, top) == p.(body := p.body.(vel := Origin))
  {
  }
}
