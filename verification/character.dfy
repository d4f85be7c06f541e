/** The permanent stat upgrades of game/src/ui/CharacterScreen.js: the
    nine offers with their doubling prices, buying one, and the clamped
    scrolling of the list. */
module Character {
  import opened Common
  import opened GameState

  /** `BALANCE.upgrades[k].baseCost` and `.costScaling`, the same for all
      nine stats. */
  const UpgradeBaseCost := 50
  const UpgradeCostScaling := 2.0

  /** `BALANCE.upgrades[k].value`: what one purchase adds. */
  function UpgradeValue(k: Stat): (v: real)
    ensures v > 0.0
  {
    match k
    case HealthStat => 1.0
    case SpeedStat => 20.0
    case DamageStat => 0.2
    case FireRateStat => 0.2
    case DodgeStat => 5.0
    case LuckStat => 1.0
    case CritChanceStat => 5.0
    case CritDamageStat => 25.0
    case RegenerationStat => 0.01
  }

  /** One entry of the list: the stat, its price, what it adds and how many
      have been bought. */
  datatype Offer = Offer(stat: Stat, cost: int, value: real, purchases: int)

  /** `floor(50 * 2^n)`: the price after `n` purchases. A negative counter
      gives a fractional power, as `Math.pow` would. */
  function UpgradeCost(n: int): (c: int)
    ensures c >= 0
  {
    (UpgradeBaseCost as real * PowInt(UpgradeCostScaling, n)).Floor
  }

  /** `2^n` on integers. */
  function Pow2(n: nat): (p: nat)
    ensures p >= 1
  {
    if n == 0 then 1 else 2 * Pow2(n - 1)
  }

  lemma {:induction false} Pow2Agrees(n: nat)
    ensures Pow(2.0, n) == Pow2(n) as real
  {
    if n > 0 {
      Pow2Agrees(n - 1);
    }
  }

  /** From a non-negative counter the price is exactly 50 times a power of
      two, so each purchase doubles the next price. */
  lemma UpgradeCostDoubles(n: nat)
    ensures UpgradeCost(n) == UpgradeBaseCost * Pow2(n)
    ensures UpgradeCost(n + 1) == 2 * UpgradeCost(n)
  {
    Pow2Agrees(n);
    Pow2Agrees(n + 1);
  }

  /** `getUpgrades`: one offer per stat in the table's order, each priced by
      its own counter (a missing counter reads 0). */
  function GetUpgrades(d: PlayerData): (r: seq<Offer>)
    ensures |r| == |AllStats|
    ensures forall i :: 0 <= i < |r| ==>
      && r[i].stat == AllStats[i]
      && r[i].purchases == Count(d.purchases, AllStats[i])
      && r[i].cost == UpgradeCost(Count(d.purchases, AllStats[i]))
      && r[i].value == UpgradeValue(AllStats[i])
  {
    seq(|AllStats|, i requires 0 <= i < |AllStats| =>
      Offer(AllStats[i], UpgradeCost(Count(d.purchases, AllStats[i])), UpgradeValue(AllStats[i]),
            Count(d.purchases, AllStats[i])))
  }

  /** `purchaseUpgrade`: when the money covers the price, pay it, add the
      value to the stat and count the purchase; otherwise nothing. */
  function PurchaseUpgrade(d: PlayerData, o: Offer): (r: PlayerData)
    ensures d.money < o.cost ==> r == d
    ensures d.money >= o.cost ==>
      && r.money == d.money - o.cost
      && Get(r.stats, o.stat) == Get(d.stats, o.stat) + o.value
      && Count(r.purchases, o.stat) == Count(d.purchases, o.stat) + 1
    ensures forall k: Stat :: k != o.stat ==>
      Get(r.stats, k) == Get(d.stats, k) && Count(r.purchases, k) == Count(d.purchases, k)
    ensures r.stats.pickupRange == d.stats.pickupRange
    ensures r.(money := d.money, stats := d.stats, purchases := d.purchases) == d
  {
    if d.money >= o.cost then
      d.(money := d.money - o.cost,
         stats := Set(d.stats, o.stat, Get(d.stats, o.stat) + o.value),
         purchases := d.purchases[o.stat := Count(d.purchases, o.stat) + 1])
    else d
  }

  /** A click on the `i`-th entry buys it at the price the list shows now:
      the stat's own entry, priced by its own counter. */
  function Buy(d: PlayerData, k: Stat): (r: PlayerData)
    ensures r == PurchaseUpgrade(d, Offer(k, UpgradeCost(Count(d.purchases, k)), UpgradeValue(k), Count(d.purchases, k)))
    ensures var price := UpgradeCost(Count(d.purchases, k));
      && (d.money < price ==> r == d)
      && (d.money >= price ==>
            && r.money == d.money - price
            && Get(r.stats, k) == Get(d.stats, k) + UpgradeValue(k)
            && Count(r.purchases, k) == Count(d.purchases, k) + 1)
    ensures r.money >= 0 || r.money == d.money
    ensures d.money >= 0 ==> r.money >= 0
  {
    AllStatsListsEachOnce(k);
    var i :| 0 <= i < |AllStats| && AllStats[i] == k;
    PurchaseUpgrade(d, GetUpgrades(d)[i])
  }

  /** Buying a stat `n` times in a row from no purchases, with enough money,
      costs `50 * (2^n - 1)` and adds `n` times its value. */
  function BuyTimes(d: PlayerData, k: Stat, n: nat): PlayerData
  {
    if n == 0 then d else Buy(BuyTimes(d, k, n - 1), k)
  }

  lemma {:induction false} BuyTimesCost(d: PlayerData, k: Stat, n: nat)
    requires Count(d.purchases, k) == 0
    requires d.money >= UpgradeBaseCost * (Pow2(n) - 1)
    ensures var r := BuyTimes(d, k, n);
      && r.money == d.money - UpgradeBaseCost * (Pow2(n) - 1)
      && Count(r.purchases, k) == n
      && Get(r.stats, k) == Get(d.stats, k) + UpgradeValue(k) * n as real
  {
    if n > 0 {
      assert Pow2(n) == 2 * Pow2(n - 1);
      BuyTimesCost(d, k, n - 1);
      var p := BuyTimes(d, k, n - 1);
      UpgradeCostDoubles(n - 1);
      assert p.money >= UpgradeCost(n - 1);
      assert UpgradeValue(k) * n as real == UpgradeValue(k) * (n - 1) as real + UpgradeValue(k);
    }
  }

  // ---------------------------------------------------------------------
  // Scrolling

  /** The scroll step of one wheel event. */
  const ScrollSpeed := 30.0
  /** Vertical space per entry. */
  const UpgradeBoxSpacing := 60.0

  datatype Scroll = Scroll(offset: real, maxScroll: real)

  /** The list's visible height on a canvas of the given height. */
  function VisibleHeight(canvasHeight: real): real
  {
    canvasHeight - canvasHeight * 0.35 - 50.0
  }

  /** `activate`: the scroll range is what the nine entries overflow the
      visible area by (never negative), and the list starts at the top. */
  function Activate(canvasHeight: real): (s: Scroll)
    ensures s.offset == 0.0 && s.maxScroll >= 0.0
    ensures s.maxScroll == 0.0 <==> |AllStats| as real * UpgradeBoxSpacing <= VisibleHeight(canvasHeight)
  {
    Scroll(0.0, Max(0.0, |AllStats| as real * UpgradeBoxSpacing - VisibleHeight(canvasHeight)))
  }

  /** `onWheel`: down moves 30 towards the end, up 30 towards the top,
      clamped. */
  function Wheel(s: Scroll, deltaY: real): (r: Scroll)
    ensures r.maxScroll == s.maxScroll
    ensures deltaY > 0.0 ==> r.offset == Min(s.maxScroll, s.offset + ScrollSpeed)
    ensures deltaY <= 0.0 ==> r.offset == Max(0.0, s.offset - ScrollSpeed)
  {
    if deltaY > 0.0 then s.(offset := Min(s.maxScroll, s.offset + ScrollSpeed))
    else s.(offset := Max(0.0, s.offset - ScrollSpeed))
  }

  predicate InRange(s: Scroll)
  {
    0.0 <= s.offset <= s.maxScroll
  }

  /** The offset never leaves `[0, maxScroll]`: activation starts inside,
      and every wheel event stays inside. */
  lemma WheelStaysInRange(s: Scroll, deltaY: real, canvasHeight: real)
    requires InRange(s)
    ensures InRange(Wheel(s, deltaY))
    ensures InRange(Activate(canvasHeight))
  {
  }

  /** Away from the ends, a step down and a step up cancel. */
  lemma WheelDownThenUp(s: Scroll, down: real, up: real)
    requires InRange(s) && s.offset + ScrollSpeed <= s.maxScroll
    requires down > 0.0 && up <= 0.0
    ensures Wheel(Wheel(s, down), up) == s
  {
  }

  /** The scroll after a run of wheel events. */
  function WheelAll(s: Scroll, deltas: seq<real>): Scroll
    decreases |deltas|
  {
    if |deltas| == 0 then s else WheelAll(Wheel(s, deltas[0]), deltas[1..])
  }

  lemma {:induction false} WheelAllStaysInRange(s: Scroll, deltas: seq<real>)
    requires InRange(s)
    ensures InRange(WheelAll(s, deltas)) && WheelAll(s, deltas).maxScroll == s.maxScroll
    decreases |deltas|
  {
    if |deltas| > 0 {
      WheelAllStaysInRange(Wheel(s, deltas[0]), deltas[1..]);
    }
  }
}
