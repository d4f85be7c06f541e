/** The persistent progress of game/src/systems/GameState.js: the fresh
    defaults, the backfill for saves without weapon levels, permadeath's
    reset, level completion, and the current screen. */
module GameState {
  import opened Common
  import opened Balance

  datatype Screen = Menu | LevelSelect | Playing | Paused | RoundComplete | GameOver

  datatype Scheme = Mouse | Keyboard

  /** The player's persistent stats. */
  datatype Stats = Stats(health: real, speed: real, damage: real, fireRate: real, dodge: real,
                         luck: real, critChance: real, critDamage: real, pickupRange: real,
                         regeneration: real)

  /** The stats of a new character: the `BALANCE.player` base values. */
  const BaseStats := Stats(PlayerBaseHealth, PlayerBaseSpeed, PlayerBaseDamage, PlayerBaseFireRate,
                           PlayerBaseDodge, PlayerBaseLuck, PlayerBaseCritChance, PlayerBaseCritDamage,
                           PlayerBasePickupRange, PlayerBaseRegeneration)

  /** The nine stats that have a purchase counter, in the declaration order
      of `BALANCE.upgrades`. The pickup range has none. */
  datatype Stat = HealthStat | SpeedStat | DamageStat | FireRateStat | DodgeStat | LuckStat
                | CritChanceStat | CritDamageStat | RegenerationStat

  const AllStats: seq<Stat> := [HealthStat, SpeedStat, DamageStat, FireRateStat, DodgeStat, LuckStat,
                                CritChanceStat, CritDamageStat, RegenerationStat]

  /** Each stat appears once in the declaration order. */
  lemma AllStatsListsEachOnce(k: Stat)
    ensures |AllStats| == 9
    ensures exists i :: 0 <= i < |AllStats| && AllStats[i] == k
    ensures forall i, j :: 0 <= i < j < |AllStats| ==> AllStats[i] != AllStats[j]
  {
    match k
    case HealthStat => assert AllStats[0] == k;
    case SpeedStat => assert AllStats[1] == k;
    case DamageStat => assert AllStats[2] == k;
    case FireRateStat => assert AllStats[3] == k;
    case DodgeStat => assert AllStats[4] == k;
    case LuckStat => assert AllStats[5] == k;
    case CritChanceStat => assert AllStats[6] == k;
    case CritDamageStat => assert AllStats[7] == k;
    case RegenerationStat => assert AllStats[8] == k;
  }

  /** `stats[k]`. */
  function Get(s: Stats, k: Stat): real
  {
    match k
    case HealthStat => s.health
    case SpeedStat => s.speed
    case DamageStat => s.damage
    case FireRateStat => s.fireRate
    case DodgeStat => s.dodge
    case LuckStat => s.luck
    case CritChanceStat => s.critChance
    case CritDamageStat => s.critDamage
    case RegenerationStat => s.regeneration
  }

  /** `stats[k] = v`: that stat and no other changes. */
  function Set(s: Stats, k: Stat, v: real): (r: Stats)
    ensures Get(r, k) == v
    ensures forall other: Stat :: other != k ==> Get(r, other) == Get(s, other)
    ensures r.pickupRange == s.pickupRange
  {
    match k
    case HealthStat => s.(health := v)
    case SpeedStat => s.(speed := v)
    case DamageStat => s.(damage := v)
    case FireRateStat => s.(fireRate := v)
    case DodgeStat => s.(dodge := v)
    case LuckStat => s.(luck := v)
    case CritChanceStat => s.(critChance := v)
    case CritDamageStat => s.(critDamage := v)
    case RegenerationStat => s.(regeneration := v)
  }

  /** Any one of the ten stats, the pickup range included. */
  datatype Field = Upgradable(stat: Stat) | PickupRange

  function Read(s: Stats, f: Field): real
  {
    match f
    case Upgradable(k) => Get(s, k)
    case PickupRange => s.pickupRange
  }

  /** The progress record. Weapons and items are held by their table keys.
      An absent `itemStacks` or `upgradePurchases` object and an absent key
      in one read the same (`|| 0`), so both are maps whose missing keys
      count 0; an absent `bounceHouseStacks` reads as 0 too. */
  datatype PlayerData = PlayerData(
    unlockedLevels: int, money: int, stats: Stats, purchases: map<Stat, int>,
    weapons: seq<string>, weaponLevels: map<string, int>,
    items: seq<string>, itemStacks: map<string, int>, bounceHouseStacks: int,
    scheme: Scheme)

  /** `m[k] || 0`. */
  function Count<K>(m: map<K, int>, k: K): int
  {
    if k in m then m[k] else 0
  }

  /** `weaponLevels[id] || 1`: a missing or zero level reads as 1. */
  function LevelOf(d: PlayerData, id: string): (l: int)
    ensures id !in d.weaponLevels ==> l == 1
    ensures id in d.weaponLevels && d.weaponLevels[id] != 0 ==> l == d.weaponLevels[id]
  {
    if id in d.weaponLevels && d.weaponLevels[id] != 0 then d.weaponLevels[id] else 1
  }

  /** All nine counters at 0. */
  function NoPurchases(): (m: map<Stat, int>)
    ensures forall k: Stat :: k in m && m[k] == 0
  {
    var m := map k | k in AllStats :: 0;
    assert forall k: Stat :: k in m by {
      forall k: Stat ensures k in m {
        AllStatsListsEachOnce(k);
      }
    }
    m
  }

  /** The record of a new character with the given control scheme. */
  function Fresh(scheme: Scheme): (d: PlayerData)
    ensures d.unlockedLevels == 1 && d.money == 0 && d.stats == BaseStats
    ensures forall k: Stat :: k in d.purchases && Count(d.purchases, k) == 0
    ensures d.weapons == ["pistol"] && d.weaponLevels == map["pistol" := 1]
    ensures d.items == [] && forall id: string :: Count(d.itemStacks, id) == 0
    ensures d.bounceHouseStacks == 0 && d.scheme == scheme
  {
    PlayerData(1, 0, BaseStats, NoPurchases(), ["pistol"], map["pistol" := 1], [], map[], 0, scheme)
  }

  /** Every owned weapon at level 1. */
  function LevelsOne(weapons: seq<string>): (m: map<string, int>)
    ensures m.Keys == set w | w in weapons
    ensures forall w :: w in m ==> m[w] == 1
  {
    map w | w in weapons :: 1
  }

  /** `loadPlayerData`: a new character when nothing is saved; otherwise the
      save, with each owned weapon put at level 1 when the save has no
      `weaponLevels` object. `levels` is the save's `weaponLevels`, and
      replaces the field of `saved`. */
  function Load(saved: Option<PlayerData>, levels: Option<map<string, int>>): (d: PlayerData)
    ensures saved.None? ==> d == Fresh(Mouse)
    ensures saved.Some? ==> d.(weaponLevels := saved.value.weaponLevels) == saved.value
    ensures saved.Some? && levels.Some? ==> d.weaponLevels == levels.value
    ensures saved.Some? && levels.None? ==>
      forall w :: (w in d.weaponLevels <==> w in saved.value.weapons) && (w in d.weaponLevels ==> LevelOf(d, w) == 1)
  {
    match saved
    case None => Fresh(Mouse)
    case Some(s) =>
      match levels
      case Some(m) => s.(weaponLevels := m)
      case None => s.(weaponLevels := LevelsOne(s.weapons))
  }

  /** `resetProgress`, the permadeath wipe: the defaults of a new character,
      keeping only the control scheme. */
  function ResetProgress(d: PlayerData): (r: PlayerData)
    ensures r.scheme == d.scheme
    ensures r.(scheme := Mouse) == Fresh(Mouse)
  {
    Fresh(d.scheme)
  }

  /** After a reset nothing bought survives: money 0, level 1 unlocked, base
      stats, every counter and stack at 0, only a level-1 pistol. */
  lemma ResetForgetsEverything(d: PlayerData, id: string, k: Stat)
    ensures var r := ResetProgress(d);
      && r.money == 0 && r.unlockedLevels == 1 && r.stats == BaseStats
      && Count(r.itemStacks, id) == 0 && r.bounceHouseStacks == 0 && Count(r.purchases, k) == 0
      && r.weapons == ["pistol"] && LevelOf(r, "pistol") == 1 && r.items == []
    ensures ResetProgress(ResetProgress(d)) == ResetProgress(d)
  {
  }

  /** `completeLevel`: the round's money is banked, and finishing the
      highest unlocked level below 30 unlocks the next one. */
  function CompleteLevel(d: PlayerData, level: int, earned: int): (r: PlayerData)
    ensures r.money == d.money + earned
    ensures level >= d.unlockedLevels && level < TotalLevels ==> r.unlockedLevels == level + 1
    ensures !(level >= d.unlockedLevels && level < TotalLevels) ==> r.unlockedLevels == d.unlockedLevels
    ensures r.(money := d.money, unlockedLevels := d.unlockedLevels) == d
  {
    var d1 := d.(money := d.money + earned);
    if level >= d1.unlockedLevels && level < TotalLevels then d1.(unlockedLevels := level + 1) else d1
  }

  /** The unlocked count is a high-water mark: it becomes the larger of
      itself and the level after the one completed, except that completing
      level 30 or above changes nothing. It never decreases and never
      passes 30. */
  lemma UnlockIsHighWaterMark(d: PlayerData, level: int, earned: int)
    ensures var u := CompleteLevel(d, level, earned).unlockedLevels;
      && u == (if level >= TotalLevels then d.unlockedLevels
              else if d.unlockedLevels >= level + 1 then d.unlockedLevels else level + 1)
      && d.unlockedLevels <= u
      && (d.unlockedLevels <= TotalLevels ==> u <= TotalLevels)
  {
  }

  /** Completing levels from a fresh start in any order never unlocks more
      than one level past the highest completed. */
  function CompleteAll(d: PlayerData, levels: seq<int>): PlayerData
    decreases |levels|
  {
    if |levels| == 0 then d else CompleteAll(CompleteLevel(d, levels[0], 0), levels[1..])
  }

  lemma {:induction false} UnlockedStaysInRange(d: PlayerData, levels: seq<int>)
    requires 1 <= d.unlockedLevels <= TotalLevels
    ensures 1 <= d.unlockedLevels <= CompleteAll(d, levels).unlockedLevels <= TotalLevels
    ensures CompleteAll(d, levels).money == d.money
    decreases |levels|
  {
    if |levels| > 0 {
      UnlockedStaysInRange(CompleteLevel(d, levels[0], 0), levels[1..]);
    }
  }

  /** The `GameState` object: the current screen, the progress record and
      the level being played. */
  datatype Session = Session(state: Screen, data: PlayerData, currentLevel: int)

  /** The constructor: the menu, the loaded record, level 1. */
  function NewSession(saved: Option<PlayerData>, levels: Option<map<string, int>>): (s: Session)
    ensures s.state == Menu && s.currentLevel == 1 && s.data == Load(saved, levels)
  {
    Session(Menu, Load(saved, levels), 1)
  }

  function SetState(s: Session, state: Screen): (r: Session)
    ensures r.state == state && r.data == s.data && r.currentLevel == s.currentLevel
  {
    s.(state := state)
  }

  function GetState(s: Session): Screen
  {
    s.state
  }

  /** `getState` returns the last state set, and setting twice is setting
      once. */
  lemma GetReturnsLastSet(s: Session, a: Screen, b: Screen)
    ensures GetState(SetState(s, a)) == a
    ensures SetState(SetState(s, a), b) == SetState(s, b)
    ensures GetState(NewSession(None, None)) == Menu
  {
  }
}
