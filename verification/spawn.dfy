/** The spawn scheduler of game/src/systems/SpawnSystem.js: a time
    accumulator compared against the interval `1 / rate`, the weighted type
    roll, wave groups, and the choice between inside and edge placement. */
module Spawn {
  import opened Common
  import opened Balance
  import E = Enemy

  datatype Spawner = Spawner(level: int, timeSinceLastSpawn: real, totalTime: real, spawnTimer: real)

  /** The constructor: all three clocks at 0. */
  function NewSpawner(level: int): (s: Spawner)
    ensures s.level == level && s.timeSinceLastSpawn == 0.0 && s.totalTime == 0.0 && s.spawnTimer == 0.0
  {
    Spawner(level, 0.0, 0.0, 0.0)
  }

  /** `timeSinceLastSpawn >= 1 / rate` under JavaScript division: a zero
      rate gives an infinite interval, which is never reached. */
  predicate Due(since: real, rate: real)
  {
    rate != 0.0 && since >= 1.0 / rate
  }

  /** For a positive rate, being due means the accumulated time times the
      rate has reached one spawn. */
  lemma DueIsOneInterval(since: real, rate: real)
    requires rate > 0.0
    ensures Due(since, rate) <==> since * rate >= 1.0
  {
    if since >= 1.0 / rate {
      assert since * rate >= (1.0 / rate) * rate;
    } else {
      assert since * rate < (1.0 / rate) * rate;
    }
  }

  /** The enemies one spawn event adds and the random numbers it used. */
  datatype Batch = Batch(enemies: seq<E.Enemy>, used: nat)

  /** The factor a group member's amplitude or frequency is scaled by. */
  function Variation(r: Roll): (f: real)
    ensures WaveVariationMin <= f < WaveVariationMax
  {
    WaveVariationMin + r * (WaveVariationMax - WaveVariationMin)
  }

  /** One member of a wave group: an edge spawn of type `wave`, shifted 20
      pixels per place along the axis the group's edge roll chose, then a
      fresh phase, scaled amplitude and frequency, and a trail. Its sine is
      still measured from the x the edge spawn chose. */
  function GroupMember(level: int, width: real, height: real, id: nat, i: nat, n: nat, edge: int,
                       rng: Rng, trig: Trig): (r: (E.Enemy, nat))
    ensures r.0.id == id && r.0.key == Wave && r.0.wave == level && r.0.body.alive
    ensures E.WellFormed(r.0) && !r.0.bounceOffWalls && r.0.extra.trail
    ensures Config(Wave).waveAmplitude * WaveVariationMin <= r.0.extra.amplitude
      < Config(Wave).waveAmplitude * WaveVariationMax
    ensures Config(Wave).waveFrequency * WaveVariationMin <= r.0.extra.frequency
      < Config(Wave).waveFrequency * WaveVariationMax
  {
    var s := E.SpawnFromEdge(id, width, height, UiBarHeight, level, Wave, rng, trig);
    var e := s.enemy;
    var offset := (i as real - n as real / 2.0) * 20.0;
    var pos := if edge == 0 || edge == 2 then e.body.pos.(x := e.body.pos.x + offset)
               else e.body.pos.(y := e.body.pos.y + offset);
    var more := Skip(rng, s.used);
    var x := e.extra.(phase := more(0) * Pi * 2.0,
                      amplitude := Config(Wave).waveAmplitude * Variation(more(1)),
                      frequency := Config(Wave).waveFrequency * Variation(more(2)),
                      trail := true);
    (e.(body := e.body.(pos := pos), extra := x), s.used + 3)
  }

  /** Members `i` to `n - 1` of a wave group, numbered from `id`. */
  function GroupFrom(level: int, width: real, height: real, id: nat, i: nat, n: nat, edge: int,
                     rng: Rng, trig: Trig): (b: Batch)
    requires i <= n
    ensures |b.enemies| == n - i
    ensures forall j :: 0 <= j < |b.enemies| ==>
      (&& b.enemies[j].id == id + j && b.enemies[j].key == Wave && b.enemies[j].wave == level
       && b.enemies[j].body.alive && E.WellFormed(b.enemies[j]) && b.enemies[j].extra.trail)
    decreases n - i
  {
    if i == n then Batch([], 0)
    else
      var (m, k) := GroupMember(level, width, height, id, i, n, edge, rng, trig);
      var rest := GroupFrom(level, width, height, id + 1, i + 1, n, edge, Skip(rng, k), trig);
      Batch([m] + rest.enemies, k + rest.used)
  }

  /** `spawnEnemy`: roll the type; a wave roll brings a group of 2 to 10,
      anything else exactly one enemy, trackers inside the arena and the
      rest from an edge. Identities count up from `nextId`. */
  function SpawnEnemy(level: int, width: real, height: real, nextId: nat, rng: Rng, trig: Trig): (b: Batch)
    ensures var key := SelectEnemyType(level, rng(0));
      && (key == Wave ==> WaveGroupMin <= |b.enemies| <= WaveGroupMax)
      && (key != Wave ==> |b.enemies| == 1 && b.enemies[0].key == key)
    ensures forall j :: 0 <= j < |b.enemies| ==>
      (&& b.enemies[j].id == nextId + j && b.enemies[j].wave == level
       && b.enemies[j].body.alive && E.WellFormed(b.enemies[j]))
  {
    var key := SelectEnemyType(level, rng(0));
    if key == Wave then
      var n := (rng(1) * 9.0).Floor + 2;
      var edge := (rng(2) * 4.0).Floor;
      var g := GroupFrom(level, width, height, nextId, 0, n, edge, Skip(rng, 3), trig);
      Batch(g.enemies, 3 + g.used)
    else if key == Tracker then
      var s := E.SpawnInside(nextId, width, height, UiBarHeight, level, key, Skip(rng, 1));
      Batch([s.enemy], 1 + s.used)
    else
      var s := E.SpawnFromEdge(nextId, width, height, UiBarHeight, level, key, Skip(rng, 1), trig);
      Batch([s.enemy], 1 + s.used)
  }

  /** Trackers appear inside the arena, 30 pixels clear of every edge;
      every other single spawn starts outside it. */
  lemma SinglesArePlaced(level: int, width: real, height: real, nextId: nat, rng: Rng, trig: Trig)
    requires width >= 2.0 * E.InsidePadding && height - UiBarHeight >= 2.0 * E.InsidePadding
    requires SelectEnemyType(level, rng(0)) != Wave
    ensures var p := SpawnEnemy(level, width, height, nextId, rng, trig).enemies[0].body.pos;
      && (SelectEnemyType(level, rng(0)) == Tracker ==>
            E.InsidePadding <= p.x <= width - E.InsidePadding
            && UiBarHeight + E.InsidePadding <= p.y <= height - E.InsidePadding)
      && (SelectEnemyType(level, rng(0)) != Tracker ==>
            !(0.0 <= p.x <= width && UiBarHeight <= p.y <= height))
  {
    var key := SelectEnemyType(level, rng(0));
    if key != Tracker {
      E.EdgeSpawnStartsOutside(nextId, width, height, UiBarHeight, level, key, Skip(rng, 1), trig);
    }
  }

  /** The clock part of `update`: advance all three clocks, and report
      whether the time since the last spawn has reached the interval at the
      new total time; if so that clock restarts at exactly 0 (it is reset,
      not reduced by the interval). */
  function Advance(s: Spawner, dt: real): (r: (Spawner, bool))
    ensures r.0.level == s.level
    ensures r.0.totalTime == s.totalTime + dt && r.0.spawnTimer == s.spawnTimer + dt
    ensures r.1 == Due(s.timeSinceLastSpawn + dt, GetSpawnRate(s.level, s.totalTime + dt))
    ensures r.1 ==> r.0.timeSinceLastSpawn == 0.0
    ensures !r.1 ==> r.0.timeSinceLastSpawn == s.timeSinceLastSpawn + dt
  {
    var s1 := s.(totalTime := s.totalTime + dt, timeSinceLastSpawn := s.timeSinceLastSpawn + dt,
                 spawnTimer := s.spawnTimer + dt);
    if Due(s1.timeSinceLastSpawn, GetSpawnRate(s1.level, s1.totalTime)) then (s1.(timeSinceLastSpawn := 0.0), true)
    else (s1, false)
  }

  /** What one scheduler update did. */
  datatype Tick = Tick(spawner: Spawner, batch: Batch)

  /** `update`: advance the clocks and, when due, spawn once. */
  function Update(s: Spawner, dt: real, width: real, height: real, nextId: nat, rng: Rng, trig: Trig): (t: Tick)
    ensures t.spawner == Advance(s, dt).0
    ensures Advance(s, dt).1 ==> |t.batch.enemies| >= 1
    ensures !Advance(s, dt).1 ==> t.batch == Batch([], 0)
    ensures |t.batch.enemies| <= WaveGroupMax
    ensures forall j :: 0 <= j < |t.batch.enemies| ==>
      t.batch.enemies[j].id == nextId + j && t.batch.enemies[j].wave == s.level
  {
    var (c, due) := Advance(s, dt);
    Tick(c, if due then SpawnEnemy(s.level, width, height, nextId, rng, trig) else Batch([], 0))
  }

  /** `reset`: the spawn and total clocks restart; `spawnTimer` keeps
      running. */
  function Reset(s: Spawner): (r: Spawner)
    ensures r.timeSinceLastSpawn == 0.0 && r.totalTime == 0.0
    ensures r.level == s.level && r.spawnTimer == s.spawnTimer
  {
    s.(timeSinceLastSpawn := 0.0, totalTime := 0.0)
  }

  /** The clocks after frames of the given lengths. */
  function Clocks(s: Spawner, dts: seq<real>): Spawner
    decreases |dts|
  {
    if |dts| == 0 then s else Clocks(Advance(s, dts[0]).0, dts[1..])
  }

  /** The clocks' invariant: the time since the last spawn is never negative
      and never more than the total time, so the total time is the elapsed
      time of the round since the last reset. It holds after construction
      and after `reset`, and every run of non-negative frames keeps it. */
  predicate ClocksValid(s: Spawner)
  {
    0.0 <= s.timeSinceLastSpawn <= s.totalTime
  }

  lemma {:induction false} ClocksStayValid(s: Spawner, dts: seq<real>)
    requires ClocksValid(s)
    requires forall i :: 0 <= i < |dts| ==> 0.0 <= dts[i]
    ensures ClocksValid(Clocks(s, dts))
    ensures Clocks(s, dts).totalTime == s.totalTime + Sum(dts)
    ensures ClocksValid(NewSpawner(s.level)) && ClocksValid(Reset(s))
    decreases |dts|
  {
    if |dts| > 0 {
      ClocksStayValid(Advance(s, dts[0]).0, dts[1..]);
    }
  }

  /** With a level of at least 1 and a non-negative total time, a frame
      after which 1.25 seconds (the interval at the base rate) have passed
      without a spawn always spawns: the interval is never longer. */
  lemma SpawnWithinBaseInterval(s: Spawner, dt: real, width: real, height: real, nextId: nat,
                                rng: Rng, trig: Trig)
    requires s.level >= 1 && s.totalTime + dt >= 0.0
    requires s.timeSinceLastSpawn + dt >= 1.0 / BaseSpawnRate
    ensures |Update(s, dt, width, height, nextId, rng, trig).batch.enemies| >= 1
  {
    var rate := GetSpawnRate(s.level, s.totalTime + dt);
    assert rate >= BaseSpawnRate;
    assert 1.0 / rate <= 1.0 / BaseSpawnRate by {
      assert (1.0 / rate) * rate == 1.0;
      assert (1.0 / BaseSpawnRate) * BaseSpawnRate == 1.0;
    }
  }
}
