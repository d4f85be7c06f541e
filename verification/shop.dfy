/** The money logic of game/src/ui/ShopScreen.js: the price of an entry
    (with exponential scaling for stackable items), buying, the stat effect
    of each item, weapon upgrades and sales, and the ownership flags the
    click handler checks. */
module Shop {
  import opened Common
  import opened GameState
  import W = Weapons

  /** The entries of `BALANCE.items`. */
  datatype ItemId =
    | BounceHouse | Vampiric | MoneyMagnet | LuckyPenny | SpeedBoots | SharpShooter | TankArmor
    | RapidReload | ExplosiveRounds | LifeSteal | LuckyCoin | EnergyDrink | ProteinBar | SharpTips
    | QuickHands | BandaidPack | CoffeeShot | MagnetGloves | CriticalEye | HeavyRounds
    | ShieldGenerator | AdrenalineRush | DoubleTap | BloodPact | GlassCannon

  /** The item's key in the table and in the progress record. */
  function ItemName(id: ItemId): string
  {
    match id
    case BounceHouse => "bounceHouse"
    case Vampiric => "vampiric"
    case MoneyMagnet => "moneyMagnet"
    case LuckyPenny => "luckyPenny"
    case SpeedBoots => "speedBoots"
    case SharpShooter => "sharpShooter"
    case TankArmor => "tankArmor"
    case RapidReload => "rapidReload"
    case ExplosiveRounds => "explosiveRounds"
    case LifeSteal => "lifeSteal"
    case LuckyCoin => "luckyCoin"
    case EnergyDrink => "energyDrink"
    case ProteinBar => "proteinBar"
    case SharpTips => "sharpTips"
    case QuickHands => "quickHands"
    case BandaidPack => "bandaidPack"
    case CoffeeShot => "coffeeShot"
    case MagnetGloves => "magnetGloves"
    case CriticalEye => "criticalEye"
    case HeavyRounds => "heavyRounds"
    case ShieldGenerator => "shieldGenerator"
    case AdrenalineRush => "adrenalineRush"
    case DoubleTap => "doubleTap"
    case BloodPact => "bloodPact"
    case GlassCannon => "glassCannon"
  }

  /** Different items have different keys. */
  lemma ItemNamesDistinct(a: ItemId, b: ItemId)
    ensures ItemName(a) == ItemName(b) <==> a == b
  {
  }

  /** An item's price and how many of it can be held. */
  datatype ItemConfig = ItemConfig(cost: int, maxStacks: int)

  function Item(id: ItemId): ItemConfig
  {
    match id
    case BounceHouse => ItemConfig(500, 10)
    case Vampiric => ItemConfig(4000, 1)
    case MoneyMagnet => ItemConfig(150, 1)
    case LuckyPenny => ItemConfig(200, 1)
    case SpeedBoots => ItemConfig(163, 1)
    case SharpShooter => ItemConfig(350, 1)
    case TankArmor => ItemConfig(450, 1)
    case RapidReload => ItemConfig(1000, 1)
    case ExplosiveRounds => ItemConfig(13000, 1)
    case LifeSteal => ItemConfig(10000, 1)
    case LuckyCoin => ItemConfig(15, 10)
    case EnergyDrink => ItemConfig(18, 10)
    case ProteinBar => ItemConfig(20, 10)
    case SharpTips => ItemConfig(22, 10)
    case QuickHands => ItemConfig(50, 10)
    case BandaidPack => ItemConfig(250, 10)
    case CoffeeShot => ItemConfig(90, 10)
    case MagnetGloves => ItemConfig(100, 1)
    case CriticalEye => ItemConfig(110, 1)
    case HeavyRounds => ItemConfig(230, 1)
    case ShieldGenerator => ItemConfig(280, 1)
    case AdrenalineRush => ItemConfig(330, 1)
    case DoubleTap => ItemConfig(600, 1)
    case BloodPact => ItemConfig(8500, 1)
    case GlassCannon => ItemConfig(1500, 1)
  }

  /** The Bounce House's own `stackCostMultiplier`. */
  const BounceHouseStackCostMultiplier := 2.0
  /** Weapon slots. */
  const MaxWeapons := 4
  /** `BALANCE.weaponUpgrades.maxLevel`. */
  const MaxWeaponLevel := 4
  /** The floor of a weapon upgrade's price. */
  const MinUpgradeCost := 25

  /** A shop entry: a weapon or an item. */
  datatype Entry = WeaponEntry(weapon: W.WeaponId) | ItemEntry(item: ItemId)

  function Key(e: Entry): string
  {
    match e
    case WeaponEntry(w) => W.Name(w)
    case ItemEntry(i) => ItemName(i)
  }

  function BaseCost(e: Entry): int
  {
    match e
    case WeaponEntry(w) => W.Config(w).cost
    case ItemEntry(i) => Item(i).cost
  }

  /** `item.maxStacks > 1`; a weapon has no `maxStacks`, which compares
      false. */
  predicate Stackable(e: Entry)
  {
    e.ItemEntry? && Item(e.item).maxStacks > 1
  }

  /** The factor a stackable item's price grows by per stack held: 1.8 up to
      10, 2 up to 50, 2.5 from 200, 2 in between; the Bounce House takes the
      larger of 2 and its own multiplier. */
  function StackMultiplier(cost: int, bounceHouse: bool): (m: real)
    ensures !bounceHouse && cost <= 10 ==> m == 1.8
    ensures !bounceHouse && 10 < cost <= 50 ==> m == 2.0
    ensures !bounceHouse && 50 < cost < 200 ==> m == 2.0
    ensures !bounceHouse && 200 <= cost ==> m == 2.5
    ensures bounceHouse ==> m == Max(2.0, BounceHouseStackCostMultiplier)
    ensures 1.8 <= m <= 2.5
  {
    var m := if cost <= 10 then 1.8 else if cost <= 50 then 2.0 else if cost >= 200 then 2.5 else 2.0;
    if bounceHouse then Max(2.0, BounceHouseStackCostMultiplier) else m
  }

  /** `getCurrentItemCost`: the base cost, scaled for stackable items by the
      multiplier to the power of the stacks already held. */
  function Cost(d: PlayerData, e: Entry): (c: int)
    ensures !Stackable(e) ==> c == BaseCost(e)
    ensures Stackable(e) && Count(d.itemStacks, Key(e)) == 0 ==> c == BaseCost(e)
  {
    if Stackable(e) then
      var m := StackMultiplier(BaseCost(e), e.item == BounceHouse);
      (BaseCost(e) as real * PowInt(m, Count(d.itemStacks, Key(e)))).Floor
    else BaseCost(e)
  }

  /** Each stack held makes the next one dearer: the price at `n + 1`
      stacks is at least 1.8 times the price at `n`, less the rounding. */
  lemma StackCostGrows(d: PlayerData, i: ItemId, n: nat)
    requires Stackable(ItemEntry(i))
    ensures var e := ItemEntry(i);
      var before := d.(itemStacks := d.itemStacks[ItemName(i) := n]);
      var after := d.(itemStacks := d.itemStacks[ItemName(i) := n + 1]);
      && BaseCost(e) <= Cost(before, e) < Cost(after, e)
      && Cost(before, e) as real * 1.8 - 1.0 < Cost(after, e) as real
  {
    var e := ItemEntry(i);
    var m := StackMultiplier(BaseCost(e), i == BounceHouse);
    var c := BaseCost(e) as real;
    PowAtLeastOne(m, n);
    assert Pow(m, n + 1) == m * Pow(m, n);
    var x := c * Pow(m, n);
    assert c * Pow(m, n + 1) == m * x;
    assert x >= c by { MulAtLeast(c, Pow(m, n)); }
    assert m * x >= 1.8 * x;
  }

  lemma MulAtLeast(c: real, p: real)
    requires c >= 0.0 && p >= 1.0
    ensures c * p >= c
  {
  }

  // ---------------------------------------------------------------------
  // Item effects

  /** `applyItemEffect`: the stat change an item makes at purchase. Items
      that act during play (and the Bounce House, Vampiric Shots, Explosive
      Rounds and Life Steal, which have no case) change no stat. */
  function ApplyItemEffect(s: Stats, id: ItemId): Stats
  {
    match id
    case MoneyMagnet => s.(pickupRange := s.pickupRange * 2.0)
    case LuckyPenny => s.(luck := s.luck + 10.0)
    case SpeedBoots => s.(speed := s.speed * 1.3)
    case SharpShooter => s.(critChance := s.critChance + 20.0, critDamage := s.critDamage + 50.0)
    case TankArmor => s.(health := s.health + 5.0)
    case RapidReload => s.(fireRate := s.fireRate * 1.5)
    case LuckyCoin => s.(luck := s.luck + 0.5)
    case EnergyDrink => s.(speed := s.speed + 3.0)
    case ProteinBar => s.(health := s.health + 0.2)
    case SharpTips => s.(damage := s.damage * (1.0 + 0.02))
    case QuickHands => s.(fireRate := s.fireRate * (1.0 + 0.03))
    case BandaidPack => s.(regeneration := s.regeneration + 0.001)
    case CoffeeShot => s.(speed := s.speed * (1.0 + 0.05), fireRate := s.fireRate * (1.0 + 0.05))
    case MagnetGloves => s.(pickupRange := s.pickupRange + 20.0)
    case CriticalEye => s.(critChance := s.critChance + 10.0)
    case HeavyRounds => s.(damage := s.damage * 1.25, fireRate := s.fireRate * 0.9)
    case GlassCannon => s.(damage := s.damage * 2.0, health := s.health * 0.5)
    case _ => s
  }

  /** The item table read per stat: the factor an item multiplies a stat by
      (1 when it does not) ... */
  function Factor(id: ItemId, f: Field): real
  {
    match (id, f)
    case (MoneyMagnet, PickupRange) => 2.0
    case (SpeedBoots, Upgradable(SpeedStat)) => 1.3
    case (RapidReload, Upgradable(FireRateStat)) => 1.5
    case (SharpTips, Upgradable(DamageStat)) => 1.02
    case (QuickHands, Upgradable(FireRateStat)) => 1.03
    case (CoffeeShot, Upgradable(SpeedStat)) => 1.05
    case (CoffeeShot, Upgradable(FireRateStat)) => 1.05
    case (HeavyRounds, Upgradable(DamageStat)) => 1.25
    case (HeavyRounds, Upgradable(FireRateStat)) => 0.9
    case (GlassCannon, Upgradable(DamageStat)) => 2.0
    case (GlassCannon, Upgradable(HealthStat)) => 0.5
    case _ => 1.0
  }

  /** ... and the amount it adds (0 when it does not). */
  function Bonus(id: ItemId, f: Field): real
  {
    match (id, f)
    case (LuckyPenny, Upgradable(LuckStat)) => 10.0
    case (SharpShooter, Upgradable(CritChanceStat)) => 20.0
    case (SharpShooter, Upgradable(CritDamageStat)) => 50.0
    case (TankArmor, Upgradable(HealthStat)) => 5.0
    case (LuckyCoin, Upgradable(LuckStat)) => 0.5
    case (EnergyDrink, Upgradable(SpeedStat)) => 3.0
    case (ProteinBar, Upgradable(HealthStat)) => 0.2
    case (BandaidPack, Upgradable(RegenerationStat)) => 0.001
    case (MagnetGloves, PickupRange) => 20.0
    case (CriticalEye, Upgradable(CritChanceStat)) => 10.0
    case _ => 0.0
  }

  /** Every item changes each stat by a fixed factor or a fixed amount, never
      both, exactly as the table says; the four play-time items and the four
      without a case change nothing. */
  lemma ItemEffectIsTable(s: Stats, id: ItemId, f: Field)
    ensures Read(ApplyItemEffect(s, id), f) == Read(s, f) * Factor(id, f) + Bonus(id, f)
    ensures Factor(id, f) == 1.0 || Bonus(id, f) == 0.0
    ensures Factor(id, f) > 0.0
    ensures (id in {ShieldGenerator, AdrenalineRush, DoubleTap, BloodPact,
                    BounceHouse, Vampiric, ExplosiveRounds, LifeSteal}) ==> ApplyItemEffect(s, id) == s
  {
  }

  /** The stats after `n` purchases of the same item. */
  function ApplyTimes(s: Stats, id: ItemId, n: nat): Stats
  {
    if n == 0 then s else ApplyItemEffect(ApplyTimes(s, id, n - 1), id)
  }

  /** `n` applications of `y := y * a + b` to `x`. */
  function Iterate(x: real, a: real, b: real, n: nat): real
  {
    if n == 0 then x else Iterate(x, a, b, n - 1) * a + b
  }

  /** A stat after `n` purchases of one item is the table's step applied
      `n` times. */
  lemma {:induction false} StacksIterate(s: Stats, id: ItemId, n: nat, f: Field)
    ensures Read(ApplyTimes(s, id, n), f) == Iterate(Read(s, f), Factor(id, f), Bonus(id, f), n)
  {
    if n > 0 {
      var t := ApplyTimes(s, id, n - 1);
      StacksIterate(s, id, n - 1, f);
      ItemEffectIsTable(t, id, f);
    }
  }

  /** When the step only multiplies or only adds, `n` steps multiply by the
      `n`-th power or add `n` times. */
  lemma {:induction false} IterateClosedForm(x: real, a: real, b: real, n: nat)
    requires a == 1.0 || b == 0.0
    ensures Iterate(x, a, b, n) == x * Pow(a, n) + b * n as real
  {
    if n > 0 {
      IterateClosedForm(x, a, b, n - 1);
      CompoundStep(x, a, b, n);
    }
  }

  /** Stacks compound: after `n` purchases a stat has been multiplied by the
      item's factor `n` times or had its amount added `n` times. */
  lemma StacksCompound(s: Stats, id: ItemId, n: nat, f: Field)
    ensures Read(ApplyTimes(s, id, n), f) == Read(s, f) * Pow(Factor(id, f), n) + Bonus(id, f) * n as real
  {
    StacksIterate(s, id, n, f);
    ItemEffectIsTable(s, id, f);
    IterateClosedForm(Read(s, f), Factor(id, f), Bonus(id, f), n);
  }

  /** One more application of `y * a + b` to the closed form at `n - 1`
      gives the closed form at `n`, when `a` is 1 or `b` is 0. */
  lemma CompoundStep(x: real, a: real, b: real, n: nat)
    requires n > 0 && (a == 1.0 || b == 0.0)
    ensures (x * Pow(a, n - 1) + b * (n - 1) as real) * a + b == x * Pow(a, n) + b * n as real
  {
    var p := Pow(a, n - 1);
    assert Pow(a, n) == a * p;
    if a == 1.0 {
      assert (x * p + b * (n - 1) as real) * a + b == x * p + b * n as real;
    } else {
      assert (x * p + b * (n - 1) as real) * a == x * (a * p);
    }
  }

  /** No item drives a non-negative stat negative. */
  lemma ItemsKeepStatsNonNegative(s: Stats, id: ItemId, f: Field)
    requires Read(s, f) >= 0.0
    ensures Read(ApplyItemEffect(s, id), f) >= 0.0
  {
    ItemEffectIsTable(s, id, f);
  }

  // ---------------------------------------------------------------------
  // Buying

  /** No key appears twice. */
  predicate NoDuplicates(xs: seq<string>)
  {
    forall i, j :: 0 <= i < j < |xs| ==> xs[i] != xs[j]
  }

  /** `xs` with `x` pushed unless it is already there. */
  function AddOnce(xs: seq<string>, x: string): (r: seq<string>)
    ensures x in r && forall y :: y in r <==> y in xs || y == x
    ensures x in xs ==> r == xs
    ensures x !in xs ==> r == xs + [x]
    ensures NoDuplicates(xs) ==> NoDuplicates(r)
  {
    if x in xs then xs else xs + [x]
  }

  /** The weapon half of a paid purchase: pushed at level 1 unless owned. */
  function AddWeapon(d: PlayerData, key: string): (r: PlayerData)
    ensures r.weapons == AddOnce(d.weapons, key)
    ensures key !in d.weapons ==> r.weaponLevels == d.weaponLevels[key := 1]
    ensures key in d.weapons ==> r == d
    ensures r.(weapons := d.weapons, weaponLevels := d.weaponLevels) == d
  {
    if key !in d.weapons then d.(weapons := d.weapons + [key], weaponLevels := d.weaponLevels[key := 1])
    else d
  }

  /** The item half of a paid purchase. A stackable item gains one stack
      unless already at its cap (the money stays spent either way), keeps
      the Bounce House count in step, is listed on its first stack, and
      applies its effect; any other item is listed and applied once. */
  function AddItem(d: PlayerData, id: ItemId): (r: PlayerData)
    ensures r.money == d.money && r.weapons == d.weapons && r.weaponLevels == d.weaponLevels
    ensures r.items == AddOnce(d.items, ItemName(id)) || r == d
    ensures Item(id).maxStacks > 1 ==>
      (if Count(d.itemStacks, ItemName(id)) >= Item(id).maxStacks then r == d
       else && Count(r.itemStacks, ItemName(id)) == Count(d.itemStacks, ItemName(id)) + 1
            && r.items == AddOnce(d.items, ItemName(id))
            && r.stats == ApplyItemEffect(d.stats, id))
    ensures Item(id).maxStacks <= 1 ==>
      (if ItemName(id) in d.items then r == d
       else r.items == d.items + [ItemName(id)] && r.stats == ApplyItemEffect(d.stats, id))
    ensures forall other :: other != ItemName(id) ==> Count(r.itemStacks, other) == Count(d.itemStacks, other)
  {
    var key := ItemName(id);
    if Item(id).maxStacks > 1 then
      var n := Count(d.itemStacks, key);
      if n >= Item(id).maxStacks then d
      else
        var d1 := d.(itemStacks := d.itemStacks[key := n + 1]);
        var d2 := if id == BounceHouse then d1.(bounceHouseStacks := n + 1) else d1;
        d2.(items := AddOnce(d.items, key), stats := ApplyItemEffect(d.stats, id))
    else if key !in d.items then
      d.(items := d.items + [key], stats := ApplyItemEffect(d.stats, id))
    else d
  }

  /** `purchaseItem`: a fifth weapon is refused; so is anything the money
      does not cover; otherwise the price is paid and the entry added. */
  function Purchase(d: PlayerData, e: Entry): (r: PlayerData)
    ensures e.WeaponEntry? && |d.weapons| >= MaxWeapons ==> r == d
    ensures d.money < Cost(d, e) ==> r == d
    ensures !(e.WeaponEntry? && |d.weapons| >= MaxWeapons) && d.money >= Cost(d, e) ==>
      r.money == d.money - Cost(d, e)
    ensures r.money <= d.money && (d.money >= 0 ==> r.money >= 0)
    ensures r.unlockedLevels == d.unlockedLevels && r.purchases == d.purchases && r.scheme == d.scheme
    ensures e.ItemEntry? ==> r.weapons == d.weapons && r.weaponLevels == d.weaponLevels
    ensures e.WeaponEntry? ==> r.items == d.items && r.stats == d.stats && r.itemStacks == d.itemStacks
  {
    if e.WeaponEntry? && |d.weapons| >= MaxWeapons then d
    else
      var cost := Cost(d, e);
      if d.money < cost then d
      else
        var paid := d.(money := d.money - cost);
        match e
        case WeaponEntry(w) => AddWeapon(paid, W.Name(w))
        case ItemEntry(i) => AddItem(paid, i)
  }

  /** What the shop keeps true of the record: at most four weapons, no key
      twice, and no stackable item past its cap. */
  predicate Healthy(d: PlayerData)
  {
    && |d.weapons| <= MaxWeapons && NoDuplicates(d.weapons) && NoDuplicates(d.items)
    && forall i: ItemId :: Count(d.itemStacks, ItemName(i)) <= Item(i).maxStacks || Item(i).maxStacks <= 1
  }

  lemma PurchaseKeepsHealthy(d: PlayerData, e: Entry)
    requires Healthy(d)
    ensures Healthy(Purchase(d, e))
  {
    var r := Purchase(d, e);
    forall i: ItemId ensures Count(r.itemStacks, ItemName(i)) <= Item(i).maxStacks || Item(i).maxStacks <= 1 {
      if e.ItemEntry? && e.item != i {
        ItemNamesDistinct(e.item, i);
      }
    }
  }

  /** Buying a stackable item at its cap takes the price and gives
      nothing: the cap is checked only after the money is gone. */
  lemma CappedStackLosesMoney(d: PlayerData, i: ItemId)
    requires Item(i).maxStacks > 1 && Count(d.itemStacks, ItemName(i)) >= Item(i).maxStacks
    requires d.money >= Cost(d, ItemEntry(i))
    ensures Purchase(d, ItemEntry(i)) == d.(money := d.money - Cost(d, ItemEntry(i)))
    ensures Cost(d, ItemEntry(i)) > 0
  {
    var m := StackMultiplier(Item(i).cost, i == BounceHouse);
    PowAtLeastOne(m, Count(d.itemStacks, ItemName(i)));
    MulAtLeast(Item(i).cost as real, PowInt(m, Count(d.itemStacks, ItemName(i))));
  }

  // ---------------------------------------------------------------------
  // Ownership flags and the click guard

  /** `updateOwnership`: a weapon is owned when listed; a stackable item is
      never owned but may be at its cap; another item is owned when listed. */
  predicate Owned(d: PlayerData, e: Entry)
  {
    match e
    case WeaponEntry(w) => W.Name(w) in d.weapons
    case ItemEntry(i) => Item(i).maxStacks <= 1 && ItemName(i) in d.items
  }

  predicate AtMaxStacks(d: PlayerData, e: Entry)
  {
    Stackable(e) && Count(d.itemStacks, Key(e)) >= Item(e.item).maxStacks
  }

  /** A click on an entry buys it only when it is neither owned nor at its
      cap. */
  function Click(d: PlayerData, e: Entry): (r: PlayerData)
    ensures Owned(d, e) || AtMaxStacks(d, e) ==> r == d
  {
    if Owned(d, e) || AtMaxStacks(d, e) then d else Purchase(d, e)
  }

  /** Through the click guard money is never spent for nothing: whenever a
      click costs money, the entry is now owned or has one more stack. */
  lemma ClickNeverWastesMoney(d: PlayerData, e: Entry)
    requires Click(d, e).money < d.money
    ensures var r := Click(d, e);
      || (e.WeaponEntry? && Key(e) !in d.weapons && Key(e) in r.weapons)
      || (e.ItemEntry? && !Stackable(e) && Key(e) !in d.items && Key(e) in r.items)
      || (Stackable(e) && Count(r.itemStacks, Key(e)) == Count(d.itemStacks, Key(e)) + 1)
  {
  }

  // ---------------------------------------------------------------------
  // Weapon upgrades and sales

  /** `max(25, floor(cost * level))`: the weapon's cost times its current
      level, at least 25. The table's `upgradeCostMultiplier` is not used. */
  function UpgradeCost(w: W.WeaponId, level: int): (c: int)
    ensures c >= MinUpgradeCost
    ensures c == W.Config(w).cost * level || c == MinUpgradeCost
    ensures W.Config(w).cost * level >= MinUpgradeCost ==> c == W.Config(w).cost * level
  {
    var c := W.Config(w).cost * level;
    if c >= MinUpgradeCost then c else MinUpgradeCost
  }

  /** `upgradeWeapon`: refused at level 4; otherwise, if affordable, the
      price is paid and the level goes up by one. */
  function UpgradeWeapon(d: PlayerData, w: W.WeaponId): (r: PlayerData)
    ensures LevelOf(d, W.Name(w)) >= MaxWeaponLevel ==> r == d
    ensures LevelOf(d, W.Name(w)) < MaxWeaponLevel && d.money >= UpgradeCost(w, LevelOf(d, W.Name(w))) ==>
      && r.money == d.money - UpgradeCost(w, LevelOf(d, W.Name(w)))
      && W.Name(w) in r.weaponLevels && r.weaponLevels[W.Name(w)] == LevelOf(d, W.Name(w)) + 1
    ensures d.money < UpgradeCost(w, LevelOf(d, W.Name(w))) ==> r == d
    ensures forall other :: other != W.Name(w) ==> LevelOf(r, other) == LevelOf(d, other)
    ensures r.(money := d.money, weaponLevels := d.weaponLevels) == d
  {
    var key := W.Name(w);
    var level := LevelOf(d, key);
    if level >= MaxWeaponLevel then d
    else
      var cost := UpgradeCost(w, level);
      if d.money >= cost then d.(money := d.money - cost, weaponLevels := d.weaponLevels[key := level + 1])
      else d
  }

  /** Levels never pass 4, and money never goes negative, however many
      upgrades are tried. */
  lemma UpgradeKeepsLevelCap(d: PlayerData, w: W.WeaponId, key: string)
    requires LevelOf(d, key) <= MaxWeaponLevel && d.money >= 0
    ensures LevelOf(UpgradeWeapon(d, w), key) <= MaxWeaponLevel
    ensures UpgradeWeapon(d, w).money >= 0
  {
  }

  /** `xs` without any copy of `x`, in order. */
  function Remove(xs: seq<string>, x: string): (r: seq<string>)
    ensures forall y :: y in r <==> y in xs && y != x
    ensures |r| <= |xs|
    ensures NoDuplicates(xs) ==> NoDuplicates(r)
    ensures NoDuplicates(xs) && x in xs ==> |r| == |xs| - 1
    ensures x !in xs ==> r == xs
  {
    if |xs| == 0 then []
    else
      var rest := Remove(xs[1..], x);
      assert forall y :: y in xs <==> y == xs[0] || y in xs[1..];
      assert NoDuplicates(xs) ==> NoDuplicates(xs[1..]) && xs[0] !in xs[1..];
      if xs[0] == x then rest else [xs[0]] + rest
  }

  /** `floor(cost * 0.8)`. */
  function SellPrice(w: W.WeaponId): (p: int)
    ensures p as real <= W.Config(w).cost as real * 0.8 < p as real + 1.0
  {
    (W.Config(w).cost as real * 0.8).Floor
  }

  /** `sellWeapon`: refused while only one weapon is held; otherwise the
      sale price is paid out and every copy of the key and its level entry
      are dropped. */
  function SellWeapon(d: PlayerData, w: W.WeaponId): (r: PlayerData)
    ensures |d.weapons| <= 1 ==> r == d
    ensures |d.weapons| > 1 ==>
      && r.money == d.money + SellPrice(w)
      && r.weapons == Remove(d.weapons, W.Name(w))
      && r.weaponLevels == d.weaponLevels - {W.Name(w)}
    ensures r.(money := d.money, weapons := d.weapons, weaponLevels := d.weaponLevels) == d
  {
    if |d.weapons| <= 1 then d
    else
      var key := W.Name(w);
      d.(money := d.money + SellPrice(w), weapons := Remove(d.weapons, key),
         weaponLevels := d.weaponLevels - {key})
  }

  /** A sale never empties a weapon list without duplicates, and keeps the
      shop's invariant. */
  lemma SellNeverEmpties(d: PlayerData, w: W.WeaponId)
    requires Healthy(d) && |d.weapons| >= 1
    ensures |SellWeapon(d, w).weapons| >= 1
    ensures Healthy(SellWeapon(d, w))
  {
  }

  /** Buying a weapon and selling it straight back restores the weapon list
      and levels, and costs the difference between its price and its sale
      price. */
  lemma BuyThenSell(d: PlayerData, w: W.WeaponId)
    requires Healthy(d) && 1 <= |d.weapons| < MaxWeapons && W.Name(w) !in d.weapons
    requires W.Name(w) !in d.weaponLevels && d.money >= W.Config(w).cost
    ensures var r := SellWeapon(Purchase(d, WeaponEntry(w)), w);
      && r.weapons == d.weapons && r.weaponLevels == d.weaponLevels
      && r.money == d.money - W.Config(w).cost + SellPrice(w)
      && r.money < d.money
  {
    var key := W.Name(w);
    var p := Purchase(d, WeaponEntry(w));
    assert p.weapons == d.weapons + [key];
    RemoveAppended(d.weapons, key);
    assert p.weaponLevels - {key} == d.weaponLevels;
  }

  lemma {:induction false} RemoveAppended(xs: seq<string>, x: string)
    requires x !in xs
    ensures Remove(xs + [x], x) == xs
  {
    if |xs| > 0 {
      assert (xs + [x])[1..] == xs[1..] + [x];
      RemoveAppended(xs[1..], x);
    } else {
      assert [x][1..] == [];
    }
  }
}
