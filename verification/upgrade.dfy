/** The end-of-round upgrade screen of game/src/ui/UpgradeScreen.js: the
    weighted draw of four distinct offers, applying the chosen one, paid
    rerolls with a session-wide limit, and the word wrapping of card
    descriptions. */
module Upgrade {
  import opened Common
  import opened GameState

  /** `BALANCE.endWaveUpgrades.optionsCount` and `.rerollCost`. */
  const OptionsCount := 4
  const RerollCost := 25
  /** Rerolls allowed per session. */
  const MaxRerolls := 3
  /** The caps `selectUpgrade` applies. */
  const DodgeCap := 95.0
  const CritChanceCap := 100.0

  /** `BALANCE.endWaveUpgrades.upgradeTypes`, in table order. */
  const Types: seq<Stat> := [HealthStat, DamageStat, FireRateStat, SpeedStat, DodgeStat, LuckStat,
                             CritChanceStat, CritDamageStat, RegenerationStat]

  /** A type's draw weight. */
  function Weight(k: Stat): real
  {
    match k
    case HealthStat => 10.0
    case DamageStat => 10.0
    case FireRateStat => 8.0
    case SpeedStat => 8.0
    case DodgeStat => 6.0
    case LuckStat => 6.0
    case CritChanceStat => 5.0
    case CritDamageStat => 5.0
    case RegenerationStat => 4.0
  }

  /** What choosing a type adds. */
  function Value(k: Stat): real
  {
    match k
    case HealthStat => 0.5
    case DamageStat => 0.1
    case FireRateStat => 0.1
    case SpeedStat => 10.0
    case DodgeStat => 2.0
    case LuckStat => 2.0
    case CritChanceStat => 2.0
    case CritDamageStat => 10.0
    case RegenerationStat => 0.005
  }

  /** The `type` key of a table entry. */
  function TypeName(k: Stat): string
  {
    match k
    case HealthStat => "health"
    case DamageStat => "damage"
    case FireRateStat => "fireRate"
    case SpeedStat => "speed"
    case DodgeStat => "dodge"
    case LuckStat => "luck"
    case CritChanceStat => "critChance"
    case CritDamageStat => "critDamage"
    case RegenerationStat => "regeneration"
  }

  /** The table lists every type once. */
  lemma TypesListEachOnce(k: Stat)
    ensures |Types| == 9
    ensures exists i :: 0 <= i < |Types| && Types[i] == k
    ensures forall i, j :: 0 <= i < j < |Types| ==> Types[i] != Types[j]
  {
    match k
    case HealthStat => assert Types[0] == k;
    case DamageStat => assert Types[1] == k;
    case FireRateStat => assert Types[2] == k;
    case SpeedStat => assert Types[3] == k;
    case DodgeStat => assert Types[4] == k;
    case LuckStat => assert Types[5] == k;
    case CritChanceStat => assert Types[6] == k;
    case CritDamageStat => assert Types[7] == k;
    case RegenerationStat => assert Types[8] == k;
  }

  /** The running totals of the weights in table order: 10, 20, 28, 36,
      42, 48, 53, 58, 62. */
  const Cumulative: seq<real> := [0.0, 10.0, 20.0, 28.0, 36.0, 42.0, 48.0, 53.0, 58.0, 62.0]

  /** The weight of the first `n` types. */
  function Prefix(n: nat): real
    requires n <= |Types|
  {
    Cumulative[n]
  }

  /** Each running total adds the next type's weight, which is positive. */
  lemma PrefixStep(n: nat)
    requires n < |Types|
    ensures Prefix(n + 1) == Prefix(n) + Weight(Types[n])
    ensures Weight(Types[n]) > 0.0
  {
    assert n == 0 || n == 1 || n == 2 || n == 3 || n == 4 || n == 5 || n == 6 || n == 7 || n == 8;
  }

  /** The sum of all weights, which a roll is scaled by. */
  const TotalWeight := 62.0

  /** The running totals never decrease, and end at the total weight. */
  lemma {:induction false} PrefixMonotone(a: nat, b: nat)
    requires a <= b <= |Types|
    ensures Prefix(a) <= Prefix(b)
    ensures Prefix(|Types|) == TotalWeight
    decreases b - a
  {
    if a < b {
      PrefixStep(a);
      PrefixMonotone(a + 1, b);
    }
  }

  // ---------------------------------------------------------------------
  // One draw

  /** The inner loop of one draw: subtract type `i`'s weight from what is
      left of the random number, and take the type if that reaches 0 and the
      type is not yet used; otherwise go on to the next type. */
  function Walk(used: set<Stat>, random: real, i: nat): (r: Option<nat>)
    requires i <= |Types|
    ensures r.Some? ==> i <= r.value < |Types| && Types[r.value] !in used
    decreases |Types| - i
  {
    if i == |Types| then None
    else
      var left := random - Weight(Types[i]);
      if left <= 0.0 && Types[i] !in used then Some(i) else Walk(used, left, i + 1)
  }

  /** The bucket a scaled roll falls into: the first type whose running
      total reaches it (9 when none does). */
  function Bucket(x: real, j: nat): (b: nat)
    requires j <= |Types|
    ensures j <= b <= |Types|
    ensures forall k :: j < k <= b ==> Prefix(k) < x
    ensures b < |Types| ==> Prefix(b + 1) >= x
    decreases |Types| - j
  {
    if j == |Types| then |Types| else if Prefix(j + 1) >= x then j else Bucket(x, j + 1)
  }

  /** The first unused type at or after position `b`. */
  function FirstUnused(used: set<Stat>, b: nat): (r: Option<nat>)
    requires b <= |Types|
    ensures r.Some? ==> (&& b <= r.value < |Types| && Types[r.value] !in used
                         && forall k :: b <= k < r.value ==> Types[k] in used)
    ensures r.None? ==> forall k :: b <= k < |Types| ==> Types[k] in used
    decreases |Types| - b
  {
    if b == |Types| then None else if Types[b] !in used then Some(b) else FirstUnused(used, b + 1)
  }

  /** A draw takes the first unused type at or after the roll's bucket:
      subtracting weights one by one reaches 0 exactly from the bucket on,
      and from there the walk skips used types. */
  lemma {:induction false} WalkFromBucket(used: set<Stat>, x: real, i: nat)
    requires i <= |Types|
    requires forall k :: 0 < k <= i ==> Prefix(k) < x
    ensures Walk(used, x - Prefix(i), i) == FirstUnused(used, Bucket(x, i))
    decreases |Types| - i
  {
    if i < |Types| {
      PrefixStep(i);
      if Prefix(i + 1) >= x {
        assert Bucket(x, i) == i;
        forall k | i < k <= |Types|
          ensures Prefix(k) >= x
        {
          PrefixMonotone(i + 1, k);
        }
        AfterBucket(used, x, i);
      } else {
        WalkFromBucket(used, x, i + 1);
      }
    }
  }

  /** Once the running total has reached the roll, every later step reaches
      0 too, so the walk is the search for the first unused type. */
  lemma {:induction false} AfterBucket(used: set<Stat>, x: real, i: nat)
    requires i <= |Types|
    requires forall k :: i < k <= |Types| ==> Prefix(k) >= x
    ensures Walk(used, x - Prefix(i), i) == FirstUnused(used, i)
    decreases |Types| - i
  {
    if i < |Types| {
      PrefixStep(i);
      AfterBucket(used, x, i + 1);
    }
  }

  /** One draw from a roll: the index of the type taken, if any. */
  function Draw(used: set<Stat>, roll: Roll): (r: Option<nat>)
    ensures r == FirstUnused(used, Bucket(roll as real * TotalWeight, 0))
  {
    WalkFromBucket(used, roll as real * TotalWeight, 0);
    Walk(used, roll as real * TotalWeight, 0)
  }

  /** A roll in the first six buckets (a scaled roll of at most 48): with at
      most three types used it always takes one, since four types from
      there on cannot all be used. */
  predicate Low(roll: Roll)
  {
    roll as real * TotalWeight <= Prefix(6)
  }

  lemma LowDrawSucceeds(used: set<Stat>, roll: Roll)
    requires |used| < OptionsCount && Low(roll)
    ensures Draw(used, roll).Some?
  {
    assert Bucket(roll as real * TotalWeight, 0) <= 5;
    if Draw(used, roll).None? {
      assert Types[5] in used && Types[6] in used && Types[7] in used && Types[8] in used;
      var four := {Types[5], Types[6], Types[7], Types[8]};
      assert |four| == 4;
      SubsetCard(four, used);
    }
  }

  lemma {:induction false} SubsetCard<T>(a: set<T>, b: set<T>)
    requires a <= b
    ensures |a| <= |b|
    decreases |a|
  {
    if a != {} {
      var x :| x in a;
      SubsetCard(a - {x}, b - {x});
    }
  }

  // ---------------------------------------------------------------------
  // Generation

  /** The first loop of `generateUpgrades`: draw until four types are taken
      or all nine are used, one roll per draw; the finite roll sequence
      stands in for `Math.random`, so the loop also ends when it runs out.
      Returns the types taken and the rolls consumed. */
  function Phase(rolls: seq<Roll>, picked: seq<Stat>, used: set<Stat>): (r: (seq<Stat>, nat))
    requires used == (set k | k in picked) && |used| == |picked| <= OptionsCount
    ensures r.1 <= |rolls|
    ensures |picked| <= |r.0| <= OptionsCount
    ensures |r.0| == OptionsCount || r.1 == |rolls|
    decreases |rolls|
  {
    assert |Types| == 9;
    if |picked| >= OptionsCount || |used| >= |Types| || |rolls| == 0 then (picked, 0)
    else
      match Draw(used, rolls[0])
      case None =>
        var (p, n) := Phase(rolls[1..], picked, used);
        (p, n + 1)
      case Some(j) =>
        var k := Types[j];
        ElemsSnoc(picked, k);
        assert |used + {k}| == |used| + 1;
        var (p, n) := Phase(rolls[1..], picked + [k], used + {k});
        (p, n + 1)
  }

  /** No type is taken twice, and the types already taken stay in front. */
  predicate Distinct(ks: seq<Stat>)
  {
    forall i, j :: 0 <= i < j < |ks| ==> ks[i] != ks[j]
  }

  lemma {:induction false} PhaseTakesDistinct(rolls: seq<Roll>, picked: seq<Stat>, used: set<Stat>)
    requires used == (set k | k in picked) && |used| == |picked| <= OptionsCount
    requires Distinct(picked)
    ensures var r := Phase(rolls, picked, used).0;
      Distinct(r) && |picked| <= |r| && r[..|picked|] == picked
    decreases |rolls|
  {
    assert |Types| == 9;
    if !(|picked| >= OptionsCount || |used| >= |Types| || |rolls| == 0) {
      match Draw(used, rolls[0])
      case None =>
        PhaseTakesDistinct(rolls[1..], picked, used);
      case Some(j) =>
        var k := Types[j];
        ElemsSnoc(picked, k);
        assert |used + {k}| == |used| + 1;
        assert Distinct(picked + [k]);
        PhaseTakesDistinct(rolls[1..], picked + [k], used + {k});
        var r := Phase(rolls[1..], picked + [k], used + {k}).0;
        assert r[..|picked|] == r[..|picked| + 1][..|picked|];
    }
  }

  /** Taking one more type adds it to the used set. */
  lemma ElemsSnoc(picked: seq<Stat>, k: Stat)
    ensures (set x | x in picked + [k]) == (set x | x in picked) + {k}
  {
    forall x ensures x in picked + [k] <==> x in picked || x == k {
    }
  }

  /** The second loop: top up with uniformly drawn types, repeats allowed. */
  function Fill(picked: seq<Stat>, rolls: seq<Roll>): (r: seq<Stat>)
    ensures |r| >= |picked| && r[..|picked|] == picked
    ensures |picked| >= OptionsCount || |rolls| == 0 ==> r == picked
    decreases |rolls|
  {
    if |picked| >= OptionsCount || |rolls| == 0 then picked
    else Fill(picked + [Types[Uniform(rolls[0], |Types|)]], rolls[1..])
  }

  /** `floor(roll * n)`: an index drawn uniformly below `n`. */
  function Uniform(roll: Roll, n: nat): (i: nat)
    requires n > 0
    ensures i < n
  {
    var x := roll as real * n as real;
    assert 0.0 <= x < n as real;
    x.Floor
  }

  /** `generateUpgrades`: both loops over one roll sequence. */
  function Generate(rolls: seq<Roll>): (r: seq<Stat>)
  {
    var (p, n) := Phase(rolls, [], {});
    Fill(p, rolls[n..])
  }

  /** The fill loop never runs: the first loop stops only with four types or
      no rolls left, because the used set grows with the list and so never
      reaches nine. What is generated is at most four distinct types. */
  lemma GenerateIsPhaseOne(rolls: seq<Roll>)
    ensures Generate(rolls) == Phase(rolls, [], {}).0
    ensures |Generate(rolls)| <= OptionsCount
    ensures Distinct(Generate(rolls))
  {
    assert (set k: Stat | k in []) == {};
    PhaseTakesDistinct(rolls, [], {});
  }

  /** The number of low rolls in a sequence. */
  function CountLow(rolls: seq<Roll>): nat
  {
    if |rolls| == 0 then 0 else (if Low(rolls[0]) then 1 else 0) + CountLow(rolls[1..])
  }

  /** Enough low rolls guarantee a full hand: four low rolls always yield
      four distinct offers. */
  lemma {:induction false} PhaseFillsUp(rolls: seq<Roll>, picked: seq<Stat>, used: set<Stat>)
    requires used == (set k | k in picked) && |used| == |picked| <= OptionsCount
    requires CountLow(rolls) >= OptionsCount - |picked|
    ensures |Phase(rolls, picked, used).0| == OptionsCount
    decreases |rolls|
  {
    if |picked| < OptionsCount && |used| < |Types| {
      assert |rolls| > 0;
      if Low(rolls[0]) {
        LowDrawSucceeds(used, rolls[0]);
      }
      match Draw(used, rolls[0])
      case None =>
        PhaseFillsUp(rolls[1..], picked, used);
      case Some(j) =>
        var k := Types[j];
        ElemsSnoc(picked, k);
        assert |used + {k}| == |used| + 1;
        PhaseFillsUp(rolls[1..], picked + [k], used + {k});
    }
  }

  lemma FourLowRollsGiveFour(rolls: seq<Roll>)
    requires CountLow(rolls) >= OptionsCount
    ensures |Generate(rolls)| == OptionsCount
  {
    GenerateIsPhaseOne(rolls);
    assert (set k: Stat | k in []) == {};
    PhaseFillsUp(rolls, [], {});
  }

  // ---------------------------------------------------------------------
  // Offers and choosing one

  /** An offer: the stat it raises and by how much. */
  datatype Offer = Offer(stat: Stat, value: real)

  /** `createUpgrade`: the table entry with that key, or nothing for an
      unknown key. */
  function CreateUpgrade(key: string): (r: Option<Offer>)
    ensures r.Some? ==> TypeName(r.value.stat) == key && r.value.value == Value(r.value.stat)
    ensures r.None? ==> forall k: Stat :: TypeName(k) != key
  {
    Find(key, 0)
  }

  function Find(key: string, i: nat): (r: Option<Offer>)
    requires i <= |Types|
    ensures r.Some? ==> TypeName(r.value.stat) == key && r.value.value == Value(r.value.stat)
    ensures r.None? ==> forall j :: i <= j < |Types| ==> TypeName(Types[j]) != key
    decreases |Types| - i
  {
    if i == |Types| then None
    else if TypeName(Types[i]) == key then Some(Offer(Types[i], Value(Types[i])))
    else Find(key, i + 1)
  }

  /** Every table key yields its own entry. */
  lemma CreateUpgradeFindsEach(k: Stat)
    ensures CreateUpgrade(TypeName(k)) == Some(Offer(k, Value(k)))
  {
    TypesListEachOnce(k);
  }

  /** The offers shown for a roll sequence. */
  function Offers(rolls: seq<Roll>): (r: seq<Option<Offer>>)
    ensures |r| == |Generate(rolls)|
    ensures forall i :: 0 <= i < |r| ==> r[i] == Some(Offer(Generate(rolls)[i], Value(Generate(rolls)[i])))
  {
    var ks := Generate(rolls);
    forall k: Stat ensures CreateUpgrade(TypeName(k)) == Some(Offer(k, Value(k))) {
      CreateUpgradeFindsEach(k);
    }
    seq(|ks|, i requires 0 <= i < |ks| => CreateUpgrade(TypeName(ks[i])))
  }

  /** `selectUpgrade`: nothing for a missing offer; otherwise dodge and
      crit chance are raised up to their caps and every other stat simply
      raised. A dodge or crit chance already above its cap is lowered to
      it. */
  function SelectUpgrade(s: Stats, u: Option<Offer>): (r: Stats)
    ensures u.None? ==> r == s
    ensures r.pickupRange == s.pickupRange
    ensures u.Some? ==> forall k: Stat :: k != u.value.stat ==> Get(r, k) == Get(s, k)
  {
    match u
    case None => s
    case Some(o) =>
      var v := Get(s, o.stat) + o.value;
      Set(s, o.stat, if o.stat == DodgeStat then Min(DodgeCap, v)
                     else if o.stat == CritChanceStat then Min(CritChanceCap, v) else v)
  }

  /** Choosing an offer adds its value to its stat, except that dodge ends
      at most 95 and crit chance at most 100, and below the cap the addition
      is exact. */
  lemma SelectAddsCapped(s: Stats, o: Offer)
    ensures var r := Get(SelectUpgrade(s, Some(o)), o.stat);
      && r <= Get(s, o.stat) + o.value
      && (o.stat == DodgeStat ==> r <= DodgeCap && (Get(s, o.stat) + o.value <= DodgeCap ==> r == Get(s, o.stat) + o.value))
      && (o.stat == CritChanceStat ==>
            (r <= CritChanceCap && (Get(s, o.stat) + o.value <= CritChanceCap ==> r == Get(s, o.stat) + o.value)))
      && (o.stat != DodgeStat && o.stat != CritChanceStat ==> r == Get(s, o.stat) + o.value)
  {
  }

  // ---------------------------------------------------------------------
  // Rerolls

  /** The screen's state: the offers, whether a reroll is still allowed, and
      how many were paid for. */
  datatype Screen = Screen(offers: seq<Option<Offer>>, canReroll: bool, rerollsUsed: int)

  /** The constructor: no offers, rerolls allowed, none used. */
  const NewScreen := Screen([], true, 0)

  /** `activate`: new offers; the reroll state is left as it was. */
  function Activate(s: Screen, rolls: seq<Roll>): (r: Screen)
    ensures r.offers == Offers(rolls)
    ensures r.canReroll == s.canReroll && r.rerollsUsed == s.rerollsUsed
  {
    s.(offers := Offers(rolls))
  }

  /** `25 * (rerollsUsed + 1)`. */
  function RerollPrice(used: int): int
  {
    RerollCost * (used + 1)
  }

  /** `reroll`: refused once the limit is reached; otherwise, if the money
      covers the price, pay it, count the reroll, draw new offers, and close
      rerolling after the third. */
  function Reroll(s: Screen, money: int, rolls: seq<Roll>): (r: (Screen, int))
    ensures !s.canReroll ==> r == (s, money)
    ensures s.canReroll && money < RerollPrice(s.rerollsUsed) ==> r == (s, money)
    ensures s.canReroll && money >= RerollPrice(s.rerollsUsed) ==>
      && r.1 == money - RerollPrice(s.rerollsUsed)
      && r.0.rerollsUsed == s.rerollsUsed + 1
      && r.0.offers == Offers(rolls)
      && (r.0.canReroll <==> s.rerollsUsed + 1 < MaxRerolls)
  {
    if !s.canReroll then (s, money)
    else
      var cost := RerollPrice(s.rerollsUsed);
      if money >= cost then
        var used := s.rerollsUsed + 1;
        (Screen(Offers(rolls), if used >= MaxRerolls then false else s.canReroll, used), money - cost)
      else (s, money)
  }

  /** What the screen can be asked to do across a session. */
  datatype Action = ActivateScreen(rolls: seq<Roll>) | RerollOffers(rolls: seq<Roll>)

  function Run(s: Screen, money: int, actions: seq<Action>): (Screen, int)
    decreases |actions|
  {
    if |actions| == 0 then (s, money)
    else
      var (s1, m1) := match actions[0]
        case ActivateScreen(rolls) => (Activate(s, rolls), money)
        case RerollOffers(rolls) => Reroll(s, money, rolls);
      Run(s1, m1, actions[1..])
  }

  /** The reroll invariant: at most three used, and rerolling allowed
      exactly while fewer than three were. */
  predicate RerollsValid(s: Screen)
  {
    0 <= s.rerollsUsed <= MaxRerolls && (s.canReroll <==> s.rerollsUsed < MaxRerolls)
  }

  /** Since activation leaves the reroll state alone, the limit of three
      spans the whole session: from a new screen, whatever is activated and
      rerolled, the invariant holds, money only goes down, and never below
      zero when it starts there. */
  lemma {:induction false} RerollLimitSpansSession(s: Screen, money: int, actions: seq<Action>)
    requires RerollsValid(s)
    ensures RerollsValid(NewScreen)
    ensures RerollsValid(Run(s, money, actions).0)
    ensures Run(s, money, actions).0.rerollsUsed >= s.rerollsUsed
    ensures Run(s, money, actions).1 <= money
    ensures money >= 0 ==> Run(s, money, actions).1 >= 0
    decreases |actions|
  {
    if |actions| > 0 {
      var (s1, m1) := match actions[0]
        case ActivateScreen(rolls) => (Activate(s, rolls), money)
        case RerollOffers(rolls) => Reroll(s, money, rolls);
      RerollLimitSpansSession(s1, m1, actions[1..]);
    }
  }

  /** Everything a session can spend on rerolls: 25 + 50 + 75. */
  lemma RerollSpendingBounded(s: Screen, money: int, actions: seq<Action>)
    requires s == NewScreen
    ensures money - Run(s, money, actions).1 <= RerollCost * (1 + 2 + 3)
  {
    SpentSoFar(s, money, actions);
  }

  /** Money spent so far is the sum of the prices of the rerolls used. */
  function PaidFor(n: int): int
  {
    if n <= 0 then 0 else PaidFor(n - 1) + RerollPrice(n - 1)
  }

  lemma {:induction false} SpentSoFar(s: Screen, money: int, actions: seq<Action>)
    requires RerollsValid(s)
    ensures var (r, m) := Run(s, money, actions);
      money - m == PaidFor(r.rerollsUsed) - PaidFor(s.rerollsUsed)
    ensures PaidFor(MaxRerolls) == RerollCost * (1 + 2 + 3)
    ensures PaidFor(Run(s, money, actions).0.rerollsUsed) <= PaidFor(MaxRerolls)
    decreases |actions|
  {
    assert PaidFor(3) == 150 by {
      assert PaidFor(1) == 25;
      assert PaidFor(2) == 75;
    }
    if |actions| > 0 {
      var (s1, m1) := match actions[0]
        case ActivateScreen(rolls) => (Activate(s, rolls), money)
        case RerollOffers(rolls) => Reroll(s, money, rolls);
      RerollLimitSpansSession(s, money, actions[..1]);
      assert Run(s, money, actions[..1]) == Run(s1, m1, []);
      SpentSoFar(s1, m1, actions[1..]);
    } else {
      var u := s.rerollsUsed;
      assert u == 0 || u == 1 || u == 2 || u == 3;
    }
  }

  // ---------------------------------------------------------------------
  // Word wrapping

  /** `text.split(' ')`: the pieces between single spaces; an empty text is
      one empty piece, and two spaces in a row give an empty piece. */
  function Split(s: string): (r: seq<string>)
    ensures |r| >= 1
    ensures forall i :: 0 <= i < |r| ==> ' ' !in r[i]
  {
    if |s| == 0 then [""]
    else
      var rest := Split(s[1..]);
      if s[0] == ' ' then [""] + rest else [[s[0]] + rest[0]] + rest[1..]
  }

  /** The pieces joined with single spaces. */
  function Join(xs: seq<string>): string
  {
    if |xs| == 0 then "" else if |xs| == 1 then xs[0] else xs[0] + " " + Join(xs[1..])
  }

  /** Splitting then joining gives back the text. */
  lemma {:induction false} JoinSplit(s: string)
    ensures Join(Split(s)) == s
  {
    if |s| > 0 {
      JoinSplit(s[1..]);
      var rest := Split(s[1..]);
      if s[0] == ' ' {
        assert ([""] + rest)[1..] == rest;
        assert s == [' '] + s[1..];
      } else {
        var xs := [[s[0]] + rest[0]] + rest[1..];
        if |rest| > 1 {
          assert xs[1..] == rest[1..];
          assert Join(rest) == rest[0] + " " + Join(rest[1..]);
        }
        assert s == [s[0]] + s[1..];
      }
    }
  }

  /** Joining then splitting gives back pieces free of spaces. */
  lemma {:induction false} SplitJoin(xs: seq<string>)
    requires |xs| >= 1 && forall i :: 0 <= i < |xs| ==> ' ' !in xs[i]
    ensures Split(Join(xs)) == xs
  {
    if |xs| == 1 {
      SplitWord(xs[0], "");
      assert xs[0] + "" == xs[0];
    } else {
      SplitJoin(xs[1..]);
      var t := " " + Join(xs[1..]);
      assert Split(t) == [""] + Split(Join(xs[1..])) by {
        assert t[1..] == Join(xs[1..]);
      }
      SplitWord(xs[0], t);
      assert xs[0] + " " + Join(xs[1..]) == xs[0] + t;
      assert Split(t)[0] == "" && Split(t)[1..] == xs[1..];
      assert xs[0] + "" == xs[0];
      assert [xs[0]] + xs[1..] == xs;
    }
  }

  /** A word without spaces in front of a text joins the text's first piece. */
  lemma {:induction false} SplitWord(w: string, t: string)
    requires ' ' !in w
    ensures Split(w + t) == [w + Split(t)[0]] + Split(t)[1..]
  {
    if |w| > 0 {
      SplitWord(w[1..], t);
      assert (w + t)[1..] == w[1..] + t;
      assert [w[0]] + (w[1..] + Split(t)[0]) == w + Split(t)[0];
    } else {
      assert w + t == t;
      assert w + Split(t)[0] == Split(t)[0];
      assert [Split(t)[0]] + Split(t)[1..] == Split(t);
    }
  }

  /** `Join(xs + [x])`. */
  lemma {:induction false} JoinSnoc(xs: seq<string>, x: string)
    ensures Join(xs + [x]) == if |xs| == 0 then x else Join(xs) + " " + x
  {
    if |xs| > 1 {
      assert (xs + [x])[1..] == xs[1..] + [x];
      JoinSnoc(xs[1..], x);
    } else if |xs| == 1 {
      assert (xs + [x])[1..] == [x];
    }
  }

  /** A line is too wide when seven pixels a character exceed the width. */
  predicate TooWide(line: string, maxWidth: real)
  {
    |line| as real * 7.0 > maxWidth
  }

  /** The lines so far and the line being filled. */
  function Lines(lines: seq<string>, current: string): seq<string>
  {
    if current == "" then lines else lines + [current]
  }

  /** One turn of `wrapText`'s loop: the word joins the current line when
      the result stays narrow enough; otherwise a non-empty current line is
      closed and the word starts the next, and a word too wide on its own
      gets a line to itself. */
  function Place(lines: seq<string>, current: string, word: string, maxWidth: real): (r: (seq<string>, string))
    ensures || r.0 == lines
            || (current != "" && r.0 == lines + [current])
            || (TooWide(word, maxWidth) && r.0 == lines + [word])
    ensures r.1 == "" || r.1 == word || !TooWide(r.1, maxWidth)
  {
    var test := if current != "" then current + " " + word else word;
    if TooWide(test, maxWidth) then
      if current != "" then (lines + [current], word) else (lines + [word], current)
    else (lines, test)
  }

  /** With non-empty pieces, placing a word adds it, after a space, to the
      text the lines join to. */
  lemma PlaceJoins(lines: seq<string>, current: string, word: string, maxWidth: real)
    requires forall i :: 0 <= i < |lines| ==> lines[i] != ""
    requires word != ""
    ensures var (l, c) := Place(lines, current, word, maxWidth);
      && (forall i :: 0 <= i < |l| ==> l[i] != "")
      && Join(Lines(l, c)) == if Lines(lines, current) == [] then word else Join(Lines(lines, current)) + " " + word
  {
    var test := if current != "" then current + " " + word else word;
    if current != "" {
      assert Lines(lines, current) == lines + [current] != [];
      JoinSnoc(lines, current);
      if TooWide(test, maxWidth) {
        assert Lines(lines + [current], word) == (lines + [current]) + [word];
        JoinSnoc(lines + [current], word);
      } else {
        assert Lines(lines, test) == lines + [test];
        JoinSnoc(lines, test);
      }
    } else {
      assert Lines(lines, current) == lines;
      if TooWide(word, maxWidth) {
        assert Lines(lines + [word], current) == lines + [word];
      }
      JoinSnoc(lines, word);
    }
  }

  /** `wrapText`: split on single spaces and place the words in turn. Joined
      with single spaces the lines give back the text when it has no empty
      piece (no space at either end or twice in a row), and a line too wide
      for `maxWidth` is always a single word. An empty piece is lost only
      where no line is being filled: a text that does not start with a space
      and fits the width comes back whole as one line, double and trailing
      spaces included. */
  method WrapText(text: string, maxWidth: real) returns (lines: seq<string>)
    ensures (forall i :: 0 <= i < |Split(text)| ==> Split(text)[i] != "") ==> Join(lines) == text
    ensures Split(text)[0] != "" && !TooWide(text, maxWidth) ==> lines == [text]
    ensures maxWidth >= 0.0 ==> forall i :: 0 <= i < |lines| ==> lines[i] != ""
    ensures forall i :: 0 <= i < |lines| ==> !TooWide(lines[i], maxWidth) || lines[i] in Split(text)
  {
    var words := Split(text);
    var current := "";
    lines := [];
    var n := 0;
    while n < |words|
      invariant 0 <= n <= |words|
      invariant maxWidth >= 0.0 || (forall i :: 0 <= i < n ==> words[i] != "") ==>
        forall i :: 0 <= i < |lines| ==> lines[i] != ""
      invariant forall i :: 0 <= i < |lines| ==> !TooWide(lines[i], maxWidth) || lines[i] in words
      invariant current == "" || !TooWide(current, maxWidth) || current in words
      invariant (forall i :: 0 <= i < n ==> words[i] != "") ==> Join(Lines(lines, current)) == Join(words[..n])
      invariant words[0] != "" && !TooWide(text, maxWidth) ==>
        lines == [] && current == (if n == 0 then "" else Join(words[..n]))
    {
      StepJoins(words, n, lines, current, maxWidth);
      if words[0] != "" && !TooWide(text, maxWidth) {
        StepFits(text, words, n, lines, current, maxWidth);
      }
      StepShapes(words, n, lines, current, maxWidth);
      var (l, c) := Place(lines, current, words[n], maxWidth);
      lines, current := l, c;
      n := n + 1;
    }
    assert words[..n] == words;
    JoinSplit(text);
    if words[0] != "" && !TooWide(text, maxWidth) {
      WholeLine(text, words, current);
    }
    lines := Lines(lines, current);
  }

  /** After the last piece of a text that starts with a word, the line
      being filled is the whole text. */
  lemma WholeLine(text: string, words: seq<string>, current: string)
    requires words == Split(text) && words[0] != ""
    requires current == (if |words| == 0 then "" else Join(words[..|words|]))
    ensures Lines([], current) == [text]
  {
    JoinSplit(text);
    assert words[..|words|] == words;
    PrefixStarts(words, |words|);
  }

  /** Joining the first `m` pieces gives a prefix of joining them all. */
  lemma {:induction false} JoinPrefix(xs: seq<string>, m: nat)
    requires 1 <= m <= |xs|
    ensures Join(xs[..m]) <= Join(xs)
  {
    if m > 1 {
      assert xs[..m][1..] == xs[1..][..m - 1];
      JoinPrefix(xs[1..], m - 1);
    } else {
      assert xs[..1] == [xs[0]];
    }
  }

  /** While the text fits the width and starts with a word, every turn
      extends the one line being filled by the next piece, empty or not. */
  lemma StepFits(text: string, words: seq<string>, n: nat, lines: seq<string>, current: string, maxWidth: real)
    requires words == Split(text) && n < |words| && words[0] != "" && !TooWide(text, maxWidth)
    requires lines == [] && current == (if n == 0 then "" else Join(words[..n]))
    ensures var (l, c) := Place(lines, current, words[n], maxWidth);
      l == [] && c == Join(words[..n + 1])
  {
    PrefixFits(text, words, n + 1, maxWidth);
    if n == 0 {
      assert words[..1] == [words[0]];
    } else {
      PrefixStarts(words, n);
      assert words[..n + 1] == words[..n] + [words[n]];
      JoinSnoc(words[..n], words[n]);
    }
  }

  /** Every prefix of the pieces of a text that fits the width fits too. */
  lemma PrefixFits(text: string, words: seq<string>, m: nat, maxWidth: real)
    requires words == Split(text) && 1 <= m <= |words| && !TooWide(text, maxWidth)
    ensures !TooWide(Join(words[..m]), maxWidth)
  {
    JoinSplit(text);
    JoinPrefix(words, m);
    assert |Join(words[..m])| <= |text|;
  }

  /** Pieces that start with a word join to a non-empty text. */
  lemma PrefixStarts(xs: seq<string>, m: nat)
    requires 1 <= m <= |xs| && xs[0] != ""
    ensures Join(xs[..m]) != ""
  {
    JoinPrefix(xs[..m], 1);
    assert xs[..m][..1] == [xs[0]];
  }

  /** One turn of the loop keeps the joined lines equal to the words placed
      so far, as long as no word is empty. */
  lemma StepJoins(words: seq<string>, n: nat, lines: seq<string>, current: string, maxWidth: real)
    requires n < |words|
    requires (forall i :: 0 <= i < n ==> words[i] != "") ==> forall i :: 0 <= i < |lines| ==> lines[i] != ""
    requires (forall i :: 0 <= i < n ==> words[i] != "") ==> Join(Lines(lines, current)) == Join(words[..n])
    ensures var (l, c) := Place(lines, current, words[n], maxWidth);
      (forall i :: 0 <= i < n + 1 ==> words[i] != "") ==> Join(Lines(l, c)) == Join(words[..n + 1])
  {
    if forall i :: 0 <= i < n + 1 ==> words[i] != "" {
      var word := words[n];
      assert words[..n + 1] == words[..n] + [word];
      JoinSnoc(words[..n], word);
      JoinEmpty(words[..n]);
      JoinEmpty(Lines(lines, current));
      PlaceJoins(lines, current, word, maxWidth);
    }
  }

  /** One turn of the loop keeps every closed line non-empty (for a
      non-negative width or non-empty words) and every too-wide line a
      word of the text. */
  lemma StepShapes(words: seq<string>, n: nat, lines: seq<string>, current: string, maxWidth: real)
    requires n < |words|
    requires maxWidth >= 0.0 || (forall i :: 0 <= i < n ==> words[i] != "") ==>
      forall i :: 0 <= i < |lines| ==> lines[i] != ""
    requires forall i :: 0 <= i < |lines| ==> !TooWide(lines[i], maxWidth) || lines[i] in words
    requires current == "" || !TooWide(current, maxWidth) || current in words
    ensures var (l, c) := Place(lines, current, words[n], maxWidth);
      && (maxWidth >= 0.0 || (forall i :: 0 <= i < n + 1 ==> words[i] != "") ==>
            forall i :: 0 <= i < |l| ==> l[i] != "")
      && (forall i :: 0 <= i < |l| ==> !TooWide(l[i], maxWidth) || l[i] in words)
      && (c == "" || !TooWide(c, maxWidth) || c in words)
  {
  }

  /** Joining non-empty pieces is empty only when there are none. */
  lemma {:induction false} JoinEmpty(xs: seq<string>)
    requires forall i :: 0 <= i < |xs| ==> xs[i] != ""
    ensures Join(xs) == "" <==> |xs| == 0
  {
    if |xs| > 1 {
      assert |Join(xs)| >= |xs[0]|;
    }
  }
}
