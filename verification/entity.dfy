/** The `Entity` base class of game/src/entities/Entity.js: a body with a
    position, velocity, size, health and an alive flag, shared by the
    player, enemies, projectiles and pickups. */
module Entity {
  import opened Common

  datatype Body = Body(pos: Vec, vel: Vec, size: real, health: real, maxHealth: real, alive: bool)

  /** The constructor: at rest, size 20, 100 of 100 health, alive. */
  function NewBody(pos: Vec): (b: Body)
    ensures b.pos == pos && b.vel == Origin && b.alive
    ensures b.size == 20.0 && b.health == b.maxHealth == 100.0
  {
    Body(pos, Origin, 20.0, 100.0, 100.0, true)
  }

  /** `update`: one Euler step of the position; velocity and everything
      else are kept. */
  function Move(b: Body, dt: real): (r: Body)
    ensures r.pos == Vec(b.pos.x + b.vel.x * dt, b.pos.y + b.vel.y * dt)
    ensures r.(pos := b.pos) == b
  {
    b.(pos := Vec(b.pos.x + b.vel.x * dt, b.pos.y + b.vel.y * dt))
  }

  /** Two steps at the same velocity land where one step of the summed time
      does, and a zero step stays put. */
  lemma MoveComposes(b: Body, t1: real, t2: real)
    ensures Move(Move(b, t1), t2) == Move(b, t1 + t2)
    ensures Move(b, 0.0) == b
  {
    assert b.vel.x * t1 + b.vel.x * t2 == b.vel.x * (t1 + t2);
    assert b.vel.y * t1 + b.vel.y * t2 == b.vel.y * (t1 + t2);
  }

  /** `takeDamage`: health drops by the amount; reaching 0 or below pins it
      at exactly 0 and clears the alive flag. Nothing else changes, and
      nothing here ever sets the flag back. */
  function TakeDamage(b: Body, amount: real): (r: Body)
    ensures b.health - amount <= 0.0 ==> r.health == 0.0 && !r.alive
    ensures b.health - amount > 0.0 ==> r.health == b.health - amount && r.alive == b.alive
    ensures r.(health := b.health, alive := b.alive) == b
    ensures !b.alive ==> !r.alive
    ensures 0.0 <= b.health && 0.0 <= amount ==> 0.0 <= r.health <= b.health
  {
    var h := b.health - amount;
    if h <= 0.0 then b.(health := 0.0, alive := false) else b.(health := h)
  }

  /** Two hits of non-negative damage act like one hit of their sum. */
  lemma DamageAccumulates(b: Body, a1: real, a2: real)
    requires 0.0 <= a2
    ensures TakeDamage(TakeDamage(b, a1), a2) == TakeDamage(b, a1 + a2)
  {
  }

  /** Damage to a dead body keeps it dead, whatever the sequence of hits. */
  function DamageAll(b: Body, amounts: seq<real>): Body
    decreases |amounts|
  {
    if |amounts| == 0 then b else DamageAll(TakeDamage(b, amounts[0]), amounts[1..])
  }

  lemma {:induction false} DeadStaysDead(b: Body, amounts: seq<real>)
    requires !b.alive
    ensures !DamageAll(b, amounts).alive
    decreases |amounts|
  {
    if |amounts| > 0 {
      DeadStaysDead(TakeDamage(b, amounts[0]), amounts[1..]);
    }
  }

  /** Non-negative hits from non-negative health never drive health below 0
      and never raise it. */
  lemma {:induction false} HealthStaysInRange(b: Body, amounts: seq<real>)
    requires 0.0 <= b.health
    requires forall i :: 0 <= i < |amounts| ==> 0.0 <= amounts[i]
    ensures 0.0 <= DamageAll(b, amounts).health <= b.health
    decreases |amounts|
  {
    if |amounts| > 0 {
      HealthStaysInRange(TakeDamage(b, amounts[0]), amounts[1..]);
    }
  }

  /** `checkCollision`: the centres are closer than the mean of the sizes. */
  predicate Collides(a: Body, b: Body)
  {
    StrictlyWithin(DistSq(a.pos, b.pos), (a.size + b.size) / 2.0)
  }

  /** The collision test is symmetric and agrees with comparing the true
      distance `d` between the centres. */
  lemma CollidesSymmetric(a: Body, b: Body, d: real)
    requires 0.0 <= d && d * d == DistSq(a.pos, b.pos)
    ensures Collides(a, b) == Collides(b, a)
    ensures Collides(a, b) <==> d < (a.size + b.size) / 2.0
  {
    assert DistSq(a.pos, b.pos) == DistSq(b.pos, a.pos);
    SquareFreeComparison(d, DistSq(a.pos, b.pos), (a.size + b.size) / 2.0);
  }

  datatype Bounds = Bounds(left: real, right: real, top: real, bottom: real)

  /** `getBounds`: the axis-aligned box of side `size` around the position. */
  function GetBounds(b: Body): (r: Bounds)
    ensures r.right - r.left == b.size && r.bottom - r.top == b.size
    ensures (r.left + r.right) / 2.0 == b.pos.x && (r.top + r.bottom) / 2.0 == b.pos.y
  {
    Bounds(b.pos.x - b.size / 2.0, b.pos.x + b.size / 2.0,
           b.pos.y - b.size / 2.0, b.pos.y + b.size / 2.0)
  }

  predicate Overlap(p: Bounds, q: Bounds)
  {
    p.left < q.right && q.left < p.right && p.top < q.bottom && q.top < p.bottom
  }

  /** Bodies that collide have overlapping bounding boxes. */
  lemma CollisionImpliesBoundsOverlap(a: Body, b: Body)
    requires Collides(a, b)
    ensures Overlap(GetBounds(a), GetBounds(b))
  {
    var r := (a.size + b.size) / 2.0;
    var dx, dy := a.pos.x - b.pos.x, a.pos.y - b.pos.y;
    PartsBelow(dx, dy, r * r);
    AbsBelow(dx, r);
    AbsBelow(dy, r);
  }

  /** Each axis's square is at most the sum of both. */
  lemma PartsBelow(dx: real, dy: real, bound: real)
    requires dx * dx + dy * dy < bound
    ensures dx * dx < bound && dy * dy < bound
  {
    SquareNonNegative(dx);
    SquareNonNegative(dy);
  }

  lemma SquareNonNegative(x: real)
    ensures 0.0 <= x * x
  {
    if x < 0.0 {
      SquareMonotone(0.0, -x);
    } else {
      SquareMonotone(0.0, x);
    }
  }

  lemma AbsBelow(x: real, r: real)
    requires 0.0 < r && x * x < r * r
    ensures -r < x < r
  {
    if x >= r {
      SquareMonotone(r, x);
    }
    if x <= -r {
      SquareMonotone(r, -x);
    }
  }

  // ---------------------------------------------------------------------
  // Nearest-target search

  /** An entity in a list that others search: the body plus an identity
      standing for the JavaScript object reference. */
  datatype Target = Target(id: nat, body: Body)

  /** The squared distance from `p` to the target at index `j`. */
  function D(ts: seq<Target>, p: Vec, j: nat): real
    requires j < |ts|
  {
    DistSq(ts[j].body.pos, p)
  }

  /** The scan every "closest enemy" loop in the game performs: walk the
      list in order, skip ineligible entries, and replace the best so far
      only by one strictly closer. `best` is the best among the first `i`. */
  function ClosestFrom(ts: seq<Target>, p: Vec, ok: Target -> bool, i: nat, best: Option<nat>): (r: Option<nat>)
    requires i <= |ts|
    requires best.Some? ==> best.value < i && ok(ts[best.value])
    ensures r.Some? ==> r.value < |ts| && ok(ts[r.value])
    ensures r.None? <==> best.None? && forall j :: i <= j < |ts| ==> !ok(ts[j])
    ensures r.Some? ==> forall j :: i <= j < |ts| && ok(ts[j]) ==> D(ts, p, r.value) <= D(ts, p, j)
    ensures r.Some? && best.Some? ==> D(ts, p, r.value) <= D(ts, p, best.value)
    ensures r.Some? && r != best ==>
      (&& i <= r.value
       && (best.Some? ==> D(ts, p, r.value) < D(ts, p, best.value))
       && forall j :: i <= j < r.value && ok(ts[j]) ==> D(ts, p, r.value) < D(ts, p, j))
    decreases |ts| - i
  {
    if i == |ts| then best
    else if ok(ts[i]) && (best.None? || D(ts, p, i) < D(ts, p, best.value)) then
      ClosestFrom(ts, p, ok, i + 1, Some(i))
    else
      ClosestFrom(ts, p, ok, i + 1, best)
  }

  /** The index of the eligible entry nearest to `p`, the earliest one on a
      tie; `None` exactly when no entry is eligible. */
  function Closest(ts: seq<Target>, p: Vec, ok: Target -> bool): (r: Option<nat>)
    ensures r.None? <==> forall j :: 0 <= j < |ts| ==> !ok(ts[j])
    ensures r.Some? ==>
      (&& r.value < |ts| && ok(ts[r.value])
       && (forall j :: 0 <= j < |ts| && ok(ts[j]) ==> D(ts, p, r.value) <= D(ts, p, j))
       && (forall j :: 0 <= j < r.value && ok(ts[j]) ==> D(ts, p, r.value) < D(ts, p, j)))
  {
    ClosestFrom(ts, p, ok, 0, None)
  }

  /** The entry with a given identity, if the list holds one. */
  function Find(ts: seq<Target>, id: nat): (r: Option<nat>)
    ensures r.Some? ==> r.value < |ts| && ts[r.value].id == id
    ensures r.None? ==> forall j :: 0 <= j < |ts| ==> ts[j].id != id
    decreases |ts|
  {
    if |ts| == 0 then None
    else if ts[|ts| - 1].id == id then Some(|ts| - 1)
    else Find(ts[..|ts| - 1], id)
  }
}
