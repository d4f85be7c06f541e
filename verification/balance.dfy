/** The balance tables of game/src/config/balance.js and its four helper
    functions: per-wave enemy stats, the per-wave spawn distribution, the
    weighted choice of an enemy type, and the spawn rate. */
module Balance {
  import opened Common

  /** An enemy type key. `Unlisted` stands for any string that is not a key of
      the enemy table; every lookup falls back to `basic` for it. */
  datatype EnemyKey = Basic | Tracker | Tank | Shooter | Wave | Boss | Zoomer
                    | Unlisted(name: string)

  datatype Behavior = BouncerAI | TrackerAI | TankAI | ShooterAI | WaveAI | BossAI | ZoomerAI

  /** One entry of the enemy table. Fields a type does not define are 0. */
  datatype EnemyConfig = EnemyConfig(
    size: real,
    baseHealth: real, healthPerWave: real,
    baseSpeed: real, speedPerWave: real,
    baseDamage: real, damagePerWave: real,
    baseXp: real, xpPerWave: real,
    moneyDropChance: real, moneyValue: int,
    behavior: Behavior,
    aggroRadius: real,
    shootCooldown: real, waveSpawnCooldown: real,
    projectileSpeed: real, projectileDamage: real, projectileSize: real,
    projectileBounces: int,
    waveAmplitude: real, waveFrequency: real)

  const BasicConfig := EnemyConfig(15.0, 0.8, 0.05, 70.0, 3.0, 0.8, 0.15, 10.0, 2.0, 0.3, 3,
                                   BouncerAI, 0.0, 0.0, 0.0, 0.0, 0.0, 0.0, 0, 0.0, 0.0)

  function Config(key: EnemyKey): EnemyConfig
  {
    match key
    case Basic => BasicConfig
    case Tracker => EnemyConfig(12.0, 0.7, 0.3, 45.0, 1.5, 0.8, 0.08, 5.0, 1.0, 0.2, 5,
                                TrackerAI, 0.0, 0.0, 0.0, 0.0, 0.0, 0.0, 0, 0.0, 0.0)
    case Tank => EnemyConfig(30.0, 40.0, 20.0, 35.0, 0.8, 4.0, 0.3, 30.0, 5.0, 0.9, 20,
                             TankAI, 150.0, 0.0, 0.0, 0.0, 0.0, 0.0, 0, 0.0, 0.0)
    case Shooter => EnemyConfig(14.0, 0.7, 0.5, 90.0, 2.0, 0.4, 0.08, 15.0, 3.0, 0.4, 8,
                                ShooterAI, 0.0, 1.5, 0.0, 150.0, 0.2, 4.0, 8, 0.0, 0.0)
    case Wave => EnemyConfig(8.0, 0.3, 0.25, 120.0, 3.0, 0.2, 0.05, 3.0, 1.0, 0.1, 20,
                             WaveAI, 0.0, 0.0, 0.0, 0.0, 0.0, 0.0, 0, 90.0, 10.0)
    case Boss => EnemyConfig(50.0, 100.0, 80.0, 25.0, 0.3, 5.0, 1.0, 100.0, 20.0, 1.0, 250,
                             BossAI, 0.0, 0.8, 3.0, 120.0, 1.0, 8.0, 20, 0.0, 0.0)
    case Zoomer => EnemyConfig(8.0, 0.8, 0.4, 300.0, 5.0, 1.5, 0.2, 50.0, 10.0, 1.0, 13,
                               ZoomerAI, 0.0, 0.0, 0.0, 0.0, 0.0, 0.0, 0, 0.0, 0.0)
    case Unlisted(_) => BasicConfig
  }

  /** Group spawning bounds of the `wave` type. */
  const WaveGroupMin := 2
  const WaveGroupMax := 10
  const WaveVariationMin := 0.9
  const WaveVariationMax := 1.1

  /** Player base stats. */
  const PlayerBaseHealth := 10.0
  const PlayerBaseSpeed := 100.0
  const PlayerBaseDamage := 1.0
  const PlayerBaseFireRate := 1.0
  const PlayerBaseDodge := 5.0
  const PlayerBaseLuck := 0.0
  const PlayerBaseCritChance := 5.0
  const PlayerBaseCritDamage := 150.0
  const PlayerBaseRegeneration := 0.02
  const PlayerBasePickupRange := 50.0
  const PlayerSize := 20.0

  /** Spawning. */
  const BaseSpawnRate := 0.8
  const MaxSpawnRate := 27.0
  const SpawnRateIncreasePerWave := 0.85
  const SpawnAcceleration := 0.035
  const WaveDuration := 50.0

  /** Economy. */
  const MoneyDropValue := 2

  /** Projectiles. */
  const ProjectileBaseSpeed := 400.0
  const ProjectileBaseSize := 4.0
  const BounceHouseMaxBounces := 5

  /** UI geometry. */
  const CanvasWidth := 800.0
  const CanvasHeight := 550.0
  const GameAreaHeight := 450.0
  const UiBarHeight := 100.0

  /** The last level of a run. */
  const TotalLevels := 30

  /** The stats an enemy of a type has at a wave. */
  datatype EnemyStats = EnemyStats(health: real, speed: real, damage: real, xpValue: real,
                                   moneyDropChance: real, moneyValue: int)

  function GetEnemyStats(wave: int, key: EnemyKey): (s: EnemyStats)
    ensures s.moneyDropChance == Config(key).moneyDropChance
    ensures s.moneyValue == Config(key).moneyValue
  {
    var c := Config(key);
    EnemyStats(c.baseHealth + (wave - 1) as real * c.healthPerWave,
               c.baseSpeed + (wave - 1) as real * c.speedPerWave,
               c.baseDamage + (wave - 1) as real * c.damagePerWave,
               c.baseXp + (wave - 1) as real * c.xpPerWave,
               c.moneyDropChance, c.moneyValue)
  }

  /** Each wave adds exactly the per-wave increment to the four growing
      stats, and leaves the money fields as they are. */
  lemma StatsGrowPerWave(wave: int, key: EnemyKey)
    ensures var a, b, c := GetEnemyStats(wave, key), GetEnemyStats(wave + 1, key), Config(key);
      && b.health - a.health == c.healthPerWave
      && b.speed - a.speed == c.speedPerWave
      && b.damage - a.damage == c.damagePerWave
      && b.xpValue - a.xpValue == c.xpPerWave
      && b.moneyDropChance == a.moneyDropChance
      && b.moneyValue == a.moneyValue
  {
  }

  /** At wave 1 every stat is its base value. */
  lemma StatsAtFirstWave(key: EnemyKey)
    ensures var s, c := GetEnemyStats(1, key), Config(key);
      s.health == c.baseHealth && s.speed == c.baseSpeed &&
      s.damage == c.baseDamage && s.xpValue == c.baseXp
  {
  }

  /** No stat of any type decreases from one wave to a later one. */
  lemma StatsNonDecreasing(w1: int, w2: int, key: EnemyKey)
    requires w1 <= w2
    ensures var a, b := GetEnemyStats(w1, key), GetEnemyStats(w2, key);
      a.health <= b.health && a.speed <= b.speed && a.damage <= b.damage && a.xpValue <= b.xpValue
  {
    PerWaveGrowthNonNegative(key);
    var c := Config(key);
    var d := (w2 - w1) as real;
    assert (w2 - 1) as real == (w1 - 1) as real + d;
    assert d * c.healthPerWave >= 0.0 && d * c.speedPerWave >= 0.0;
    assert d * c.damagePerWave >= 0.0 && d * c.xpPerWave >= 0.0;
  }

  lemma PerWaveGrowthNonNegative(key: EnemyKey)
    ensures var c := Config(key);
      c.healthPerWave >= 0.0 && c.speedPerWave >= 0.0 && c.damagePerWave >= 0.0 && c.xpPerWave >= 0.0
  {
    match key
    case Basic =>
    case Tracker =>
    case Tank =>
    case Shooter =>
    case Wave =>
    case Boss =>
    case Zoomer =>
    case Unlisted(_) =>
  }

  /** An unknown type key gets the stats of `basic`. */
  lemma UnlistedIsBasic(wave: int, name: string)
    ensures GetEnemyStats(wave, Unlisted(name)) == GetEnemyStats(wave, Basic)
    ensures Config(Unlisted(name)).behavior == BouncerAI
  {
  }

  /** The comment on the player's base damage: one hit of it kills a wave-1
      basic enemy. */
  lemma BaseDamageKillsFirstWaveBasic()
    ensures GetEnemyStats(1, Basic).health <= PlayerBaseDamage
  {
  }

  // ---------------------------------------------------------------------
  // Spawn distribution and weighted choice

  type Distribution = seq<(EnemyKey, real)>

  function WaveTable(wave: int): Distribution
    requires 1 <= wave <= 30
  {
    if wave == 1 then [(Basic, 0.6), (Tracker, 0.4)]
    else if wave == 2 then [(Basic, 0.85), (Tracker, 0.15)]
    else if wave == 3 then [(Basic, 0.5), (Tracker, 0.45), (Zoomer, 0.05)]
    else if wave == 4 then [(Basic, 0.7), (Tracker, 0.2), (Zoomer, 0.1)]
    else if wave == 5 then [(Basic, 0.6), (Tracker, 0.3), (Zoomer, 0.08), (Tank, 0.02)]
    else if wave == 6 then [(Basic, 0.5), (Tracker, 0.3), (Tank, 0.03), (Zoomer, 0.07), (Wave, 0.1)]
    else if wave == 7 then [(Basic, 0.45), (Tracker, 0.3), (Tank, 0.04), (Shooter, 0.08), (Zoomer, 0.03), (Wave, 0.1)]
    else if wave == 8 then [(Basic, 0.4), (Tracker, 0.35), (Tank, 0.05), (Shooter, 0.1), (Zoomer, 0.05), (Wave, 0.05)]
    else if wave == 9 then [(Basic, 0.38), (Tracker, 0.35), (Tank, 0.05), (Shooter, 0.12), (Zoomer, 0.05), (Wave, 0.05)]
    else if wave == 10 then [(Basic, 0.35), (Tracker, 0.35), (Tank, 0.06), (Shooter, 0.15), (Zoomer, 0.05), (Wave, 0.03), (Boss, 0.01)]
    else if wave == 11 then [(Basic, 0.35), (Tracker, 0.35), (Tank, 0.05), (Shooter, 0.15), (Zoomer, 0.03), (Wave, 0.07)]
    else if wave == 12 then [(Basic, 0.33), (Tracker, 0.35), (Tank, 0.06), (Shooter, 0.16), (Zoomer, 0.03), (Wave, 0.07)]
    else if wave == 13 then [(Basic, 0.32), (Tracker, 0.34), (Tank, 0.06), (Shooter, 0.18), (Zoomer, 0.03), (Wave, 0.07)]
    else if wave == 14 then [(Basic, 0.3), (Tracker, 0.34), (Tank, 0.07), (Shooter, 0.19), (Zoomer, 0.03), (Wave, 0.07)]
    else if wave == 15 then [(Basic, 0.3), (Tracker, 0.33), (Tank, 0.07), (Shooter, 0.2), (Zoomer, 0.04), (Wave, 0.05), (Boss, 0.01)]
    else if wave == 16 then [(Basic, 0.3), (Tracker, 0.32), (Tank, 0.07), (Shooter, 0.21), (Zoomer, 0.03), (Wave, 0.07)]
    else if wave == 17 then [(Basic, 0.28), (Tracker, 0.32), (Tank, 0.08), (Shooter, 0.22), (Zoomer, 0.03), (Wave, 0.07)]
    else if wave == 18 then [(Basic, 0.28), (Tracker, 0.31), (Tank, 0.08), (Shooter, 0.23), (Zoomer, 0.03), (Wave, 0.07)]
    else if wave == 19 then [(Basic, 0.27), (Tracker, 0.31), (Tank, 0.08), (Shooter, 0.24), (Zoomer, 0.03), (Wave, 0.07)]
    else if wave == 20 then [(Basic, 0.25), (Tracker, 0.3), (Tank, 0.09), (Shooter, 0.22), (Zoomer, 0.05), (Wave, 0.07), (Boss, 0.02)]
    else if wave == 21 then [(Basic, 0.25), (Tracker, 0.32), (Tank, 0.08), (Shooter, 0.25), (Zoomer, 0.03), (Wave, 0.07)]
    else if wave == 22 then [(Basic, 0.25), (Tracker, 0.31), (Tank, 0.08), (Shooter, 0.26), (Zoomer, 0.03), (Wave, 0.07)]
    else if wave == 23 then [(Basic, 0.24), (Tracker, 0.31), (Tank, 0.09), (Shooter, 0.26), (Zoomer, 0.03), (Wave, 0.07)]
    else if wave == 24 then [(Basic, 0.24), (Tracker, 0.30), (Tank, 0.09), (Shooter, 0.27), (Zoomer, 0.03), (Wave, 0.07)]
    else if wave == 25 then [(Basic, 0.23), (Tracker, 0.30), (Tank, 0.09), (Shooter, 0.27), (Zoomer, 0.03), (Wave, 0.07), (Boss, 0.01)]
    else if wave == 26 then [(Basic, 0.23), (Tracker, 0.29), (Tank, 0.09), (Shooter, 0.28), (Zoomer, 0.04), (Wave, 0.07)]
    else if wave == 27 then [(Basic, 0.22), (Tracker, 0.29), (Tank, 0.1), (Shooter, 0.28), (Zoomer, 0.04), (Wave, 0.07)]
    else if wave == 28 then [(Basic, 0.22), (Tracker, 0.28), (Tank, 0.1), (Shooter, 0.29), (Zoomer, 0.04), (Wave, 0.07)]
    else if wave == 29 then [(Basic, 0.21), (Tracker, 0.28), (Tank, 0.1), (Shooter, 0.30), (Zoomer, 0.04), (Wave, 0.07)]
    else [(Basic, 0.2), (Tracker, 0.27), (Tank, 0.11), (Shooter, 0.28), (Zoomer, 0.04), (Wave, 0.07), (Boss, 0.03)]
  }

  const DefaultDistribution: Distribution :=
    [(Basic, 0.25), (Tracker, 0.3), (Tank, 0.08), (Shooter, 0.25), (Zoomer, 0.04), (Wave, 0.08)]

  /** `getWaveEnemyDistribution`: waves 1..30 have their own entry, every
      other wave number uses the default one. */
  function GetWaveDistribution(wave: int): (d: Distribution)
    ensures 1 <= wave <= 30 ==> d == WaveTable(wave)
    ensures !(1 <= wave <= 30) ==> d == DefaultDistribution
  {
    if 1 <= wave <= 30 then WaveTable(wave) else DefaultDistribution
  }

  /** Sum of the first `n` weights of a distribution. */
  function PrefixSum(d: Distribution, n: nat): real
    requires n <= |d|
  {
    if n == 0 then 0.0 else PrefixSum(d, n - 1) + d[n - 1].1
  }

  function Total(d: Distribution): real { PrefixSum(d, |d|) }

  /** The walk of `selectEnemyType` over the entries left, with `cumulative`
      the weight already passed. */
  function SelectFrom(d: Distribution, roll: real, cumulative: real): EnemyKey
    decreases |d|
  {
    if |d| == 0 then Basic
    else if roll <= cumulative + d[0].1 then d[0].0
    else SelectFrom(d[1..], roll, cumulative + d[0].1)
  }

  function SelectEnemyType(wave: int, roll: Roll): EnemyKey
  {
    SelectFrom(GetWaveDistribution(wave), roll, 0.0)
  }

  lemma {:induction false} PrefixSumShift(d: Distribution, n: nat)
    requires 0 < |d| && n < |d|
    ensures PrefixSum(d, n + 1) == d[0].1 + PrefixSum(d[1..], n)
  {
    if n > 0 {
      PrefixSumShift(d, n - 1);
    }
  }

  /** The walk started after `cumulative` returns the key of the first
      entry whose running total reaches the roll (index `i`, so the running
      totals of the first `i` entries all stay below it), or `basic` when
      none does (`i == -1`). */
  lemma {:induction false} SelectFromFirstReaching(d: Distribution, roll: real, cumulative: real)
    returns (i: int)
    ensures -1 <= i < |d|
    ensures forall n :: 1 <= n <= |d| && (i < 0 || n <= i) ==> cumulative + PrefixSum(d, n) < roll
    ensures 0 <= i ==> roll <= cumulative + PrefixSum(d, i + 1) && SelectFrom(d, roll, cumulative) == d[i].0
    ensures i < 0 ==> SelectFrom(d, roll, cumulative) == Basic
  {
    if |d| == 0 {
      i := -1;
    } else if roll <= cumulative + d[0].1 {
      i := 0;
      assert PrefixSum(d, 1) == d[0].1;
    } else {
      var rest := d[1..];
      var k := SelectFromFirstReaching(rest, roll, cumulative + d[0].1);
      i := if k < 0 then -1 else k + 1;
      forall n | 1 <= n <= |d| && (i < 0 || n <= i)
        ensures cumulative + PrefixSum(d, n) < roll
      {
        PrefixSumShift(d, n - 1);
        if n > 1 {
          var m := n - 1;
          assert 1 <= m <= |rest| && (k < 0 || m <= k);
          assert cumulative + d[0].1 + PrefixSum(rest, m) < roll;
        } else {
          assert PrefixSum(d, 1) == d[0].1;
        }
      }
      if 0 <= i {
        PrefixSumShift(d, i);
      }
    }
  }

  /** `selectEnemyType` in terms of the running totals of the wave's table:
      it returns the entry at the first index whose running total reaches
      the roll, in declaration order, and `basic` if no running total does. */
  lemma SelectIsFirstReaching(wave: int, roll: Roll) returns (i: int)
    ensures var d := GetWaveDistribution(wave);
      && -1 <= i < |d|
      && (forall n :: 1 <= n <= |d| && (i < 0 || n <= i) ==> PrefixSum(d, n) < roll)
      && (0 <= i ==> roll <= PrefixSum(d, i + 1) && SelectEnemyType(wave, roll) == d[i].0)
      && (i < 0 ==> SelectEnemyType(wave, roll) == Basic)
  {
    i := SelectFromFirstReaching(GetWaveDistribution(wave), roll, 0.0);
  }

  /** When the roll does not exceed a non-empty table's total, the choice is
      one of the table's own keys. */
  lemma SelectWithinTotalIsListed(d: Distribution, roll: real) returns (i: int)
    requires |d| > 0 && roll <= Total(d)
    ensures 0 <= i < |d| && SelectFrom(d, roll, 0.0) == d[i].0
  {
    i := SelectFromFirstReaching(d, roll, 0.0);
    if i < 0 {
      assert false;
    }
  }

  /** The sum of the weights, written out for tables of two to seven entries. */
  lemma TotalWrittenOut(d: Distribution)
    requires 2 <= |d| <= 7
    ensures Total(d) == d[0].1 + d[1].1
      + (if |d| > 2 then d[2].1 else 0.0) + (if |d| > 3 then d[3].1 else 0.0)
      + (if |d| > 4 then d[4].1 else 0.0) + (if |d| > 5 then d[5].1 else 0.0)
      + (if |d| > 6 then d[6].1 else 0.0)
  {
    assert PrefixSum(d, 1) == d[0].1;
    assert PrefixSum(d, 2) == PrefixSum(d, 1) + d[1].1;
    if |d| > 2 { assert PrefixSum(d, 3) == PrefixSum(d, 2) + d[2].1; }
    if |d| > 3 { assert PrefixSum(d, 4) == PrefixSum(d, 3) + d[3].1; }
    if |d| > 4 { assert PrefixSum(d, 5) == PrefixSum(d, 4) + d[4].1; }
    if |d| > 5 { assert PrefixSum(d, 6) == PrefixSum(d, 5) + d[5].1; }
    if |d| > 6 { assert PrefixSum(d, 7) == PrefixSum(d, 6) + d[6].1; }
  }

  /** Every table's weights add up to exactly 1. */
  lemma DistributionSumsToOne(wave: int)
    ensures Total(GetWaveDistribution(wave)) == 1.0
  {
    TotalWrittenOut(GetWaveDistribution(wave));
  }

  /** So any roll of `Math.random()` selects a key listed for that wave. */
  lemma SelectedTypeIsListed(wave: int, roll: Roll) returns (i: int)
    ensures var d := GetWaveDistribution(wave);
      0 <= i < |d| && SelectEnemyType(wave, roll) == d[i].0
  {
    DistributionSumsToOne(wave);
    i := SelectWithinTotalIsListed(GetWaveDistribution(wave), roll);
  }

  /** The weight a table gives to a key (0 when the key is absent). */
  function WeightOf(d: Distribution, key: EnemyKey): real
  {
    if |d| == 0 then 0.0
    else if d[0].0 == key then d[0].1 + WeightOf(d[1..], key)
    else WeightOf(d[1..], key)
  }

  predicate IsBossWave(wave: int) { wave == 10 || wave == 15 || wave == 20 || wave == 25 || wave == 30 }

  /** Bosses can only spawn on waves 10, 15, 20, 25 and 30. */
  lemma BossOnlyOnBossWaves(wave: int)
    ensures WeightOf(GetWaveDistribution(wave), Boss) > 0.0 <==> IsBossWave(wave)
  {
    var d := GetWaveDistribution(wave);
    if IsBossWave(wave) {
      assert d[|d| - 1].0 == Boss;
      WeightOfLastEntry(d);
    } else {
      forall j | 0 <= j < |d| ensures d[j].0 != Boss { }
      WeightOfAbsent(d, Boss);
    }
  }

  lemma {:induction false} WeightOfAbsent(d: Distribution, key: EnemyKey)
    requires forall j :: 0 <= j < |d| ==> d[j].0 != key
    ensures WeightOf(d, key) == 0.0
  {
    if |d| > 0 {
      WeightOfAbsent(d[1..], key);
    }
  }

  lemma {:induction false} WeightOfLastEntry(d: Distribution)
    requires |d| > 0 && d[|d| - 1].1 > 0.0
    requires forall j :: 0 <= j < |d| ==> d[j].1 >= 0.0
    ensures WeightOf(d, d[|d| - 1].0) > 0.0
  {
    var key := d[|d| - 1].0;
    if |d| > 1 {
      WeightOfLastEntry(d[1..]);
      assert d[1..][|d[1..]| - 1] == d[|d| - 1];
    }
  }

  /** The scenario "a roll of 0.99 picks the last type" does not hold for
      wave 10: its running total reaches 0.99 one entry before `boss`. */
  lemma Wave10RollAtNinetyNinePercentPicksWave()
    ensures SelectEnemyType(10, 0.99) == Wave
  {
  }

  // ---------------------------------------------------------------------
  // Spawn rate and money value

  function GetSpawnRate(wave: int, timeInWave: real): (r: real)
    ensures r <= MaxSpawnRate
    ensures wave >= 1 && timeInWave >= 0.0 ==> r >= BaseSpawnRate
  {
    Min(BaseSpawnRate + (wave - 1) as real * SpawnRateIncreasePerWave + timeInWave * SpawnAcceleration,
        MaxSpawnRate)
  }

  /** The rate never falls as the wave number or the time in the wave grows. */
  lemma SpawnRateMonotone(w1: int, w2: int, t1: real, t2: real)
    requires w1 <= w2 && t1 <= t2
    ensures GetSpawnRate(w1, t1) <= GetSpawnRate(w2, t2)
  {
    assert (w1 - 1) as real * SpawnRateIncreasePerWave <= (w2 - 1) as real * SpawnRateIncreasePerWave;
    assert t1 * SpawnAcceleration <= t2 * SpawnAcceleration;
  }

  /** `getMoneyValue`: 2 scaled by 20% per wave, floored. */
  function GetMoneyValue(wave: int): (v: int)
    ensures wave >= 1 ==> v >= MoneyDropValue
  {
    (MoneyDropValue as real * (1.0 + (wave - 1) as real * 0.2)).Floor
  }

  lemma MoneyValueMonotone(w1: int, w2: int)
    requires w1 <= w2
    ensures GetMoneyValue(w1) <= GetMoneyValue(w2)
  {
    assert (w1 - 1) as real * 0.2 <= (w2 - 1) as real * 0.2;
  }
}
