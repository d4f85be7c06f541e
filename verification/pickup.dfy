/** The `Pickup` entity of game/src/entities/Pickup.js: money or health
    lying on the arena, which fades after a fixed lifetime. */
module Pickup {
  import opened Common
  import opened Entity
  import Balance

  datatype PickupKind = MoneyPickup | HealthPickup

  datatype Pickup = Pickup(body: Body, kind: PickupKind, value: real, lifetime: real)

  const PickupSize := 16.0
  const PickupLifetime := 10.0

  /** The constructor: a money pickup is worth `MONEY_VALUE`, anything else
      0 (the caller overwrites the value afterwards); 10 seconds to live. */
  function NewPickup(pos: Vec, kind: PickupKind): (p: Pickup)
    ensures p.body.pos == pos && p.body.alive && p.body.size == PickupSize
    ensures p.kind == kind && p.lifetime == PickupLifetime
    ensures p.value == if kind == MoneyPickup then Balance.MoneyDropValue as real else 0.0
  {
    var b := NewBody(pos);
    Pickup(b.(size := PickupSize), kind,
           if kind == MoneyPickup then Balance.MoneyDropValue as real else 0.0,
           PickupLifetime)
  }

  /** `update`: only the lifetime runs down; the pickup never moves. */
  function Update(p: Pickup, dt: real): (r: Pickup)
    ensures r.lifetime == p.lifetime - dt
    ensures r.body.alive == (p.body.alive && p.lifetime - dt > 0.0)
    ensures r.body.pos == p.body.pos && r.kind == p.kind && r.value == p.value
    ensures r.body.(alive := p.body.alive) == p.body
  {
    var l := p.lifetime - dt;
    if l <= 0.0 then p.(lifetime := l, body := p.body.(alive := false)) else p.(lifetime := l)
  }

  function UpdateAll(p: Pickup, dts: seq<real>): Pickup
    decreases |dts|
  {
    if |dts| == 0 then p else UpdateAll(Update(p, dts[0]), dts[1..])
  }

  /** Over a run of frames, lifetime drops by exactly the elapsed time, the
      pickup stays where it was dropped, and it is alive afterwards only if
      it was alive before and the remaining lifetime stayed positive all
      along; with non-negative frame times, that is exactly when the total
      elapsed time is below the starting lifetime. */
  lemma {:induction false} LifetimeRunsDown(p: Pickup, dts: seq<real>)
    requires forall i :: 0 <= i < |dts| ==> 0.0 <= dts[i]
    ensures UpdateAll(p, dts).lifetime == p.lifetime - Sum(dts)
    ensures UpdateAll(p, dts).body.pos == p.body.pos
    ensures UpdateAll(p, dts).value == p.value
    ensures |dts| > 0 ==>
      (UpdateAll(p, dts).body.alive <==> p.body.alive && Sum(dts) < p.lifetime)
    decreases |dts|
  {
    if |dts| > 0 {
      var q := Update(p, dts[0]);
      LifetimeRunsDown(q, dts[1..]);
      if |dts| > 1 {
        SumNonNegative(dts[1..]);
      }
    }
  }
}
