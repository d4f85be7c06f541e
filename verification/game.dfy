/** The round logic of game/src/game.js: starting a level, pausing, one
    frame of `update` (regeneration, the round timer, adrenaline, movement,
    spawning, the weapons, then the enemy, projectile and pickup passes),
    completing the round and losing it, and the frame clamp of
    game/src/main.js. */
module Game {
  import opened Common
  import opened Entity
  import opened Balance
  import opened GameState
  import E = Enemy
  import P = Projectile
  import W = Weapons
  import Pk = Pickup
  import Pl = Player
  import Spawn

  // ---------------------------------------------------------------------
  // Constants

  /** `BALANCE.items.adrenalineRush`: the health fraction at or below which
      the boost starts, and the boost. */
  const AdrenalineTrigger := 0.3
  const AdrenalineBoost := 0.3
  /** `BALANCE.items.vampiric`: a heal every kill, of 0.1. */
  const VampiricHealPerKills := 1
  const VampiricHealAmount := 0.1
  /** `BALANCE.items.lifeSteal`, and the smallest heal worth applying. */
  const LifeStealPercent := 0.05
  const LifeStealMinimum := 0.5
  /** `BALANCE.items.shieldGenerator.blockChance`, in percent. */
  const ShieldBlockChance := 15.0
  /** `BALANCE.items.bloodPact`. */
  const HealthDropChance := 0.3
  const HealthDropAmount := 0.5
  /** The floor of a kill's money-drop chance, and its fall per level. */
  const MinDropChance := 0.05
  const DropChanceFallPerLevel := 0.01
  /** The longest frame the animation loop passes on, in seconds. */
  const MaxFrame := 1.0 / 15.0
  /** The bottom edge of the play area, and where the player starts. */
  const AreaBottom := UiBarHeight + GameAreaHeight
  const StartPos := Vec(CanvasWidth / 2.0, UiBarHeight + GameAreaHeight / 2.0)

  // ---------------------------------------------------------------------
  // State

  /** The item flags `startLevel` puts on the player. */
  datatype Items = Items(bounceHouse: bool, bounceHouseStacks: int, explosiveRounds: bool,
                         vampiric: bool, lifeSteal: bool, shieldGenerator: bool,
                         adrenalineRush: bool, doubleTap: bool, bloodPact: bool)

  /** The player entity with what the game hangs on it: the item flags, the
      vampiric kill counter, and the adrenaline boost with the speed it
      replaced. */
  datatype Hero = Hero(player: Pl.Player, items: Items, killCount: int, adrenalineActive: bool,
                       baseSpeed: real)

  /** The `Game` object during play. `nextId` is the identity the next new
      enemy gets, `drawn` how many numbers of the `Math.random` stream have
      been used, and `halted` records that an exception escaped `update`,
      which ends the animation loop. */
  datatype Round = Round(
    session: Session, paused: bool, hero: Hero, weapons: seq<W.Weapon>, spawner: Spawn.Spawner,
    enemies: seq<E.Enemy>, projectiles: seq<P.Projectile>, pickups: seq<Pk.Pickup>,
    roundTimer: real, moneyEarned: int, totalKills: int, nextId: nat, drawn: nat, halted: bool)

  /** What a frame reads from outside: the random stream, the numeric
      functions, the held keys and the mouse position if there is one. */
  datatype Env = Env(rng: Rng, trig: Trig, held: Pl.Held, mouse: Option<Vec>)

  function StatsOf(g: Round): Stats { g.session.data.stats }

  function PlayerBody(g: Round): Body { g.hero.player.body }

  function WithPlayerBody(g: Round, b: Body): Round
  {
    g.(hero := g.hero.(player := g.hero.player.(body := b)))
  }

  /** A fire rate stat and weapon rates that are all positive, so every
      weapon's cooldown is finite. */
  predicate Armed(g: Round)
  {
    StatsOf(g).fireRate > 0.0 && forall i :: 0 <= i < |g.weapons| ==> g.weapons[i].baseFireRate > 0.0
  }

  /** Every money pickup is worth a whole amount. */
  predicate WholeMoney(ps: seq<Pk.Pickup>)
  {
    forall i :: 0 <= i < |ps| && ps[i].kind == Pk.MoneyPickup ==> ps[i].value == ps[i].value.Floor as real
  }

  // ---------------------------------------------------------------------
  // Starting, pausing and ending a round

  /** The item flags of the owned items. The stack count is the first
      non-zero of `itemStacks.bounceHouse` and `bounceHouseStacks`, else
      0. */
  function ItemsOf(d: PlayerData): (it: Items)
    ensures it.bounceHouse <==> "bounceHouse" in d.items
    ensures it.explosiveRounds <==> "explosiveRounds" in d.items
    ensures it.vampiric <==> "vampiric" in d.items
    ensures it.lifeSteal <==> "lifeSteal" in d.items
    ensures it.shieldGenerator <==> "shieldGenerator" in d.items
    ensures it.adrenalineRush <==> "adrenalineRush" in d.items
    ensures it.doubleTap <==> "doubleTap" in d.items
    ensures it.bloodPact <==> "bloodPact" in d.items
    ensures Count(d.itemStacks, "bounceHouse") != 0 ==> it.bounceHouseStacks == Count(d.itemStacks, "bounceHouse")
    ensures Count(d.itemStacks, "bounceHouse") == 0 ==> it.bounceHouseStacks == d.bounceHouseStacks
  {
    var stacks := Count(d.itemStacks, "bounceHouse");
    Items("bounceHouse" in d.items,
          if stacks != 0 then stacks else if d.bounceHouseStacks != 0 then d.bounceHouseStacks else 0,
          "explosiveRounds" in d.items, "vampiric" in d.items, "lifeSteal" in d.items,
          "shieldGenerator" in d.items, "adrenalineRush" in d.items, "doubleTap" in d.items,
          "bloodPact" in d.items)
  }

  /** The owned weapons in order, each at its stored level (`|| 1`). */
  function Arsenal(d: PlayerData): (ws: seq<W.Weapon>)
    ensures |ws| == |d.weapons|
    ensures forall i :: 0 <= i < |ws| ==> ws[i] == W.CreateWeapon(d.weapons[i], LevelOf(d, d.weapons[i]))
  {
    seq(|d.weapons|, i requires 0 <= i < |d.weapons| => W.CreateWeapon(d.weapons[i], LevelOf(d, d.weapons[i])))
  }

  /** `startLevel`: a new player in the middle of the play area with the
      health and speed stats, the item flags, the owned weapons, a new
      spawner for the level, no entities, a full timer and nothing earned;
      the level becomes current and play starts. */
  function StartLevel(g: Round, level: int): (r: Round)
    ensures r.session == Session(Playing, g.session.data, level)
    ensures var b := PlayerBody(r);
      b.pos == StartPos && b.alive && b.health == b.maxHealth == g.session.data.stats.health
    ensures r.hero.player.speed == g.session.data.stats.speed
    ensures r.hero.items == ItemsOf(g.session.data) && r.hero.killCount == 0 && !r.hero.adrenalineActive
    ensures r.weapons == Arsenal(g.session.data)
    ensures r.spawner == Spawn.NewSpawner(level)
    ensures r.enemies == [] && r.projectiles == [] && r.pickups == []
    ensures r.roundTimer == WaveDuration && r.moneyEarned == 0 && r.totalKills == 0
    ensures r.paused == g.paused && r.nextId == g.nextId && r.drawn == g.drawn && r.halted == g.halted
  {
    var d := g.session.data;
    var p := Pl.NewPlayer(StartPos);
    var p1 := p.(body := p.body.(health := d.stats.health, maxHealth := d.stats.health), speed := d.stats.speed);
    g.(session := Session(Playing, d, level), hero := Hero(p1, ItemsOf(d), 0, false, 0.0),
       weapons := Arsenal(d), spawner := Spawn.NewSpawner(level),
       enemies := [], projectiles := [], pickups := [],
       roundTimer := WaveDuration, moneyEarned := 0, totalKills := 0)
  }

  /** The level menu only starts the highest unlocked level. */
  predicate CanStart(d: PlayerData, level: int)
  {
    level == d.unlockedLevels
  }

  /** A started round can be updated (with a positive fire-rate stat) and
      holds no money pickups. */
  lemma StartedRoundIsArmed(g: Round, level: int)
    requires g.session.data.stats.fireRate > 0.0
    ensures Armed(StartLevel(g, level))
    ensures WholeMoney(StartLevel(g, level).pickups)
  {
    var r := StartLevel(g, level);
    forall i | 0 <= i < |r.weapons|
      ensures r.weapons[i].baseFireRate > 0.0
    {
      var d := g.session.data;
      var id := W.ParseId(d.weapons[i]);
      assert r.weapons[i] == W.CreateWeapon(d.weapons[i], LevelOf(d, d.weapons[i]));
      if id.Some? {
        assert r.weapons[i].baseFireRate == W.Config(id.value).fireRate;
      } else {
        assert r.weapons[i].baseFireRate == W.Config(W.Pistol).fireRate;
      }
    }
  }

  /** `completeRound`: the round's money is banked, with the unlock rule of
      `completeLevel`, and the round is over. */
  function CompleteRound(g: Round): (r: Round)
    ensures r.session.state == RoundComplete && r.session.currentLevel == g.session.currentLevel
    ensures r.session.data == CompleteLevel(g.session.data, g.session.currentLevel, g.moneyEarned)
    ensures r == g.(session := r.session)
  {
    g.(session := Session(RoundComplete, CompleteLevel(g.session.data, g.session.currentLevel, g.moneyEarned),
                          g.session.currentLevel))
  }

  /** The session after `gameOver`: permadeath wipes the progress. */
  function LostSession(s: Session): (r: Session)
    ensures r.state == GameOver && r.currentLevel == s.currentLevel && r.data == ResetProgress(s.data)
  {
    Session(GameOver, ResetProgress(s.data), s.currentLevel)
  }

  /** `gameOver`. */
  function Lose(g: Round): (r: Round)
    ensures r.session == LostSession(g.session)
    ensures r == g.(session := r.session)
  {
    g.(session := LostSession(g.session))
  }

  /** Playing the highest unlocked level to the end of its timer unlocks the
      next one (below 30) and banks exactly the money earned; losing it
      instead leaves a new character with level 1 unlocked and no money. */
  lemma PlayingTheUnlockedLevel(g: Round, level: int, earned: int)
    requires CanStart(g.session.data, level) && level < TotalLevels
    ensures var s := CompleteRound(StartLevel(g, level).(moneyEarned := earned)).session.data;
      s.unlockedLevels == level + 1 && s.money == g.session.data.money + earned
    ensures var s := Lose(StartLevel(g, level)).session.data;
      s.unlockedLevels == 1 && s.money == 0 && s.stats == BaseStats
  {
  }

  /** `pauseGame`: only from play. */
  function Pause(g: Round): (r: Round)
    ensures g.session.state != Playing ==> r == g
    ensures g.session.state == Playing ==> r.paused && r.session.state == Paused
    ensures r.session.data == g.session.data
  {
    if g.session.state != Playing then g
    else g.(paused := true, session := SetState(g.session, Paused))
  }

  /** `resumeGame`. */
  function Resume(g: Round): (r: Round)
    ensures !r.paused && r.session.state == Playing && r.session.data == g.session.data
  {
    g.(paused := false, session := SetState(g.session, Playing))
  }

  /** Pausing a running round and resuming it gives the round back. */
  lemma PauseThenResume(g: Round)
    requires g.session.state == Playing && !g.paused
    ensures Resume(Pause(g)) == g
  {
  }

  // ---------------------------------------------------------------------
  // Healing, regeneration and adrenaline

  /** `health = min(maxHealth, health + amount)`. */
  function Heal(b: Body, amount: real): (r: Body)
    ensures r.health <= b.maxHealth
    ensures b.health <= b.maxHealth && 0.0 <= amount ==> b.health <= r.health
    ensures b.health + amount <= b.maxHealth ==> r.health == b.health + amount
    ensures r.(health := b.health) == b
  {
    b.(health := Min(b.maxHealth, b.health + amount))
  }

  /** Regeneration acts only below full health and with a positive rate,
      and then never lifts health past the maximum nor lowers it. */
  function Regen(b: Body, rate: real, dt: real): (r: Body)
    ensures !(b.health < b.maxHealth && rate > 0.0) ==> r == b
    ensures b.health < b.maxHealth && rate > 0.0 && dt >= 0.0 ==> b.health <= r.health <= b.maxHealth
    ensures b.health < b.maxHealth && rate > 0.0 && b.health + rate * dt <= b.maxHealth ==>
      r.health == b.health + rate * dt
    ensures r.(health := b.health) == b
  {
    if b.health < b.maxHealth && rate > 0.0 then Heal(b, rate * dt) else b
  }

  /** `health / maxHealth <= 0.3` as JavaScript evaluates it: with a zero
      maximum the quotient is an infinity or NaN, and only a negative
      health (minus infinity) passes. */
  predicate LowHealth(b: Body)
  {
    if b.maxHealth == 0.0 then b.health < 0.0 else b.health / b.maxHealth <= AdrenalineTrigger
  }

  /** For a positive maximum, low health is at most 30% of it. */
  lemma LowHealthIsThirtyPercent(b: Body)
    requires b.maxHealth > 0.0
    ensures LowHealth(b) <==> b.health <= AdrenalineTrigger * b.maxHealth
  {
    var q := b.health / b.maxHealth;
    assert b.health == q * b.maxHealth;
    if q <= AdrenalineTrigger {
      assert q * b.maxHealth <= AdrenalineTrigger * b.maxHealth;
    } else {
      assert q * b.maxHealth > AdrenalineTrigger * b.maxHealth;
    }
  }

  /** Adrenaline Rush: the boost is on exactly while health is low. Turning
      it on remembers the speed and raises it by 30%; turning it off puts
      the remembered speed back. */
  function Adrenaline(h: Hero): (r: Hero)
    ensures !h.items.adrenalineRush ==> r == h
    ensures h.items.adrenalineRush ==> r.adrenalineActive == LowHealth(h.player.body)
    ensures h.items.adrenalineRush && LowHealth(h.player.body) && !h.adrenalineActive ==>
      r.baseSpeed == h.player.speed && r.player.speed == h.player.speed * (1.0 + AdrenalineBoost)
    ensures h.items.adrenalineRush && !LowHealth(h.player.body) && h.adrenalineActive ==>
      r.player.speed == h.baseSpeed
    ensures r.adrenalineActive == h.adrenalineActive ==> r == h
    ensures r.player.body == h.player.body && r.player.aimAngle == h.player.aimAngle
    ensures r.items == h.items && r.killCount == h.killCount
  {
    if !h.items.adrenalineRush then h
    else if LowHealth(h.player.body) then
      if !h.adrenalineActive then
        h.(adrenalineActive := true, baseSpeed := h.player.speed,
           player := h.player.(speed := h.player.speed * (1.0 + AdrenalineBoost)))
      else h
    else if h.adrenalineActive then
      h.(adrenalineActive := false, player := h.player.(speed := h.baseSpeed))
    else h
  }

  /** The boost applies once however many frames health stays low, and
      recovering takes it back off to the original speed. */
  lemma AdrenalineRoundTrip(h: Hero, healed: Body)
    requires h.items.adrenalineRush && !h.adrenalineActive
    requires LowHealth(h.player.body) && !LowHealth(healed)
    ensures Adrenaline(Adrenaline(h)) == Adrenaline(h)
    ensures var boosted := Adrenaline(h);
      Adrenaline(boosted.(player := boosted.player.(body := healed))).player.speed == h.player.speed
  {
  }

  /** Vampiric Shots: count the kill, and at the threshold reset the counter
      and heal. */
  function Vampire(h: Hero): (r: Hero)
    ensures !h.items.vampiric ==> r == h
    ensures h.items.vampiric && h.killCount + 1 >= VampiricHealPerKills ==>
      r.killCount == 0 && r.player.body == Heal(h.player.body, VampiricHealAmount)
    ensures h.items.vampiric && h.killCount + 1 < VampiricHealPerKills ==>
      r.killCount == h.killCount + 1 && r.player == h.player
    ensures r.player.speed == h.player.speed && r.player.aimAngle == h.player.aimAngle
    ensures r.items == h.items && r.adrenalineActive == h.adrenalineActive && r.baseSpeed == h.baseSpeed
  {
    if !h.items.vampiric then h
    else
      var k := h.killCount + 1;
      if k >= VampiricHealPerKills then
        h.(killCount := 0, player := h.player.(body := Heal(h.player.body, VampiricHealAmount)))
      else h.(killCount := k)
  }

  /** A heal every kill: from a counter that starts at 0, every kill heals
      and the counter is back at 0 afterwards. */
  lemma VampireHealsEveryKill(h: Hero)
    requires h.items.vampiric && h.killCount >= 0
    ensures Vampire(h).killCount == 0
    ensures Vampire(h).player.body.health == Min(h.player.body.maxHealth, h.player.body.health + VampiricHealAmount)
  {
  }

  // ---------------------------------------------------------------------
  // Contact, drops and kills

  datatype Outcome = Dodged | Blocked | Hurt

  /** The contact rolls: a dodge when `roll * 100 < dodge`; otherwise, with
      a shield generator, a second roll under 15% blocks; otherwise the
      hit lands. */
  function ContactOutcome(dodge: real, shield: bool, r1: Roll, r2: Roll): (o: Outcome)
    ensures o == Hurt <==> r1 as real * 100.0 >= dodge && !(shield && r2 as real < ShieldBlockChance / 100.0)
    ensures o == Dodged <==> r1 as real * 100.0 < dodge
    ensures o == Blocked ==> shield
  {
    if r1 as real * 100.0 < dodge then Dodged
    else if shield && r2 as real < ShieldBlockChance / 100.0 then Blocked
    else Hurt
  }

  /** How many numbers the contact rolls use: the second roll is drawn only
      when the dodge failed and there is a shield. */
  function ContactRolls(dodge: real, shield: bool, r1: Roll): (n: nat)
    ensures 1 <= n <= 2 && (n == 2 <==> r1 as real * 100.0 >= dodge && shield)
  {
    if r1 as real * 100.0 < dodge then 1 else if shield then 2 else 1
  }

  /** A dodge stat of 100 or more dodges every contact, and with no dodge
      and no shield every contact hurts. */
  lemma ContactOdds(dodge: real, shield: bool, r1: Roll, r2: Roll)
    ensures dodge >= 100.0 ==> ContactOutcome(dodge, shield, r1, r2) == Dodged
    ensures dodge <= 0.0 && !shield ==> ContactOutcome(dodge, shield, r1, r2) == Hurt
  {
  }

  /** `min((level - 1) * 0.01, base - 0.05)` taken off the enemy's drop
      chance, but never below 5%. */
  function AdjustedDropChance(level: int, base: real): (c: real)
    ensures c >= MinDropChance
    ensures c == Max(MinDropChance, base - (level - 1) as real * DropChanceFallPerLevel)
    ensures level >= 1 ==> c <= Max(base, MinDropChance)
    ensures level >= 1 && base >= MinDropChance ==> MinDropChance <= c <= base
  {
    var reduction := Min((level - 1) as real * DropChanceFallPerLevel, base - MinDropChance);
    Max(MinDropChance, base - reduction)
  }

  /** Higher levels never make drops likelier. */
  lemma DropChanceFalls(l1: int, l2: int, base: real)
    requires l1 <= l2
    ensures AdjustedDropChance(l2, base) <= AdjustedDropChance(l1, base)
  {
  }

  /** The chance a kill drops money: the adjusted chance plus 1% per luck. */
  function DropChance(level: int, base: real, luck: real): (c: real)
    ensures c == AdjustedDropChance(level, base) + luck * 0.01
    ensures luck >= 0.0 ==> c >= MinDropChance
  {
    AdjustedDropChance(level, base) + luck * 0.01
  }

  /** The value of a money drop, fixed when it drops: the enemy's money
      value grown 10% per wave past the first and 2% per luck, rounded
      down. */
  function MoneyValue(e: E.Enemy, luck: real): (v: int)
    ensures var exact := e.stats.moneyValue as real * (1.0 + (e.wave - 1) as real * 0.1) * (1.0 + luck * 0.02);
      v as real <= exact < v as real + 1.0
  {
    (e.stats.moneyValue as real * (1.0 + (e.wave - 1) as real * 0.1) * (1.0 + luck * 0.02)).Floor
  }

  /** Luck and later waves never make a drop worth less than the enemy's
      own money value. */
  lemma MoneyValueAtLeastBase(e: E.Enemy, luck: real)
    requires e.stats.moneyValue >= 0 && e.wave >= 1 && luck >= 0.0
    ensures MoneyValue(e, luck) >= e.stats.moneyValue
  {
    var m := e.stats.moneyValue as real;
    var a := 1.0 + (e.wave - 1) as real * 0.1;
    var b := 1.0 + luck * 0.02;
    assert m * a >= m by {
      assert m * (a - 1.0) >= 0.0;
    }
    assert m * a * b >= m * a by {
      assert m * a * (b - 1.0) >= 0.0;
    }
  }

  /** The money a kill may drop: one pickup at the enemy's place when the
      roll is under the drop chance. */
  function MoneyDrop(e: E.Enemy, level: int, luck: real, roll: Roll): (d: seq<Pk.Pickup>)
    ensures |d| <= 1 && (|d| == 1 <==> roll as real < DropChance(level, e.stats.moneyDropChance, luck))
    ensures |d| == 1 ==>
      && d[0].kind == Pk.MoneyPickup && d[0].value == MoneyValue(e, luck) as real
      && d[0].body.pos == e.body.pos && d[0].body.alive
    ensures WholeMoney(d)
  {
    if roll as real < DropChance(level, e.stats.moneyDropChance, luck) then
      var p := Pk.NewPickup(e.body.pos, Pk.MoneyPickup);
      [p.(value := MoneyValue(e, luck) as real)]
    else []
  }

  /** Blood Pact: with the item, a roll under 30% drops a half-point health
      pickup at the enemy's place. */
  function HealthDrop(e: E.Enemy, bloodPact: bool, roll: Roll): (d: seq<Pk.Pickup>)
    ensures |d| <= 1 && (|d| == 1 <==> bloodPact && roll as real < HealthDropChance)
    ensures |d| == 1 ==>
      && d[0].kind == Pk.HealthPickup && d[0].value == HealthDropAmount
      && d[0].body.pos == e.body.pos && d[0].body.alive
    ensures WholeMoney(d)
  {
    if bloodPact && roll as real < HealthDropChance then
      var p := Pk.NewPickup(e.body.pos, Pk.HealthPickup);
      [p.(value := HealthDropAmount)]
    else []
  }

  /** The fields the enemy and projectile passes never touch, and the ones
      that only grow; the session either stays or is lost. */
  predicate Keeps(g: Round, r: Round)
  {
    && r.weapons == g.weapons && r.spawner == g.spawner && r.roundTimer == g.roundTimer
    && r.moneyEarned == g.moneyEarned && r.paused == g.paused && r.halted == g.halted
    && r.hero.items == g.hero.items
    && g.drawn <= r.drawn && g.nextId <= r.nextId && g.totalKills <= r.totalKills
    && (r.session == g.session || r.session == LostSession(g.session))
  }

  /** A dead enemy's turn: count the kill, feed Vampiric Shots, roll the
      money drop and (with Blood Pact) the health drop, and splice the enemy
      out. */
  function Kill(g: Round, j: nat, rng: Rng): (r: Round)
    requires j < |g.enemies|
    ensures r.enemies == g.enemies[..j] + g.enemies[j + 1..]
    ensures r.totalKills == g.totalKills + 1 && r.hero == Vampire(g.hero)
    ensures var e := g.enemies[j];
      r.pickups == g.pickups + MoneyDrop(e, g.session.currentLevel, StatsOf(g).luck, rng(g.drawn))
                             + HealthDrop(e, g.hero.items.bloodPact, rng(g.drawn + 1))
    ensures r.drawn == g.drawn + (if g.hero.items.bloodPact then 2 else 1)
    ensures r.session == g.session && r.projectiles == g.projectiles && r.nextId == g.nextId
    ensures Keeps(g, r)
    ensures WholeMoney(g.pickups) ==> WholeMoney(r.pickups)
  {
    var e := g.enemies[j];
    var money := MoneyDrop(e, g.session.currentLevel, StatsOf(g).luck, rng(g.drawn));
    var health := HealthDrop(e, g.hero.items.bloodPact, rng(g.drawn + 1));
    g.(hero := Vampire(g.hero), totalKills := g.totalKills + 1,
       pickups := g.pickups + money + health,
       drawn := g.drawn + (if g.hero.items.bloodPact then 2 else 1),
       enemies := g.enemies[..j] + g.enemies[j + 1..])
  }

  // ---------------------------------------------------------------------
  // The enemy pass

  /** The enemy's own update, against the player as it stands. */
  function EnemyStep(g: Round, j: nat, dt: real, env: Env): E.Step
    requires j < |g.enemies|
  {
    E.Update(g.enemies[j], dt, CanvasWidth, AreaBottom, PlayerBody(g), g.nextId, Skip(env.rng, g.drawn), env.trig)
  }

  /** The enemy at `j` after its own update, with its shots and brood
      appended. */
  function Arrive(g: Round, j: nat, s: E.Step): (r: Round)
    requires j < |g.enemies|
    ensures |r.enemies| == |g.enemies| + |s.spawned| && r.enemies[j] == s.enemy
    ensures r.enemies[..j] == g.enemies[..j]
    ensures r == g.(enemies := r.enemies, projectiles := g.projectiles + s.shots,
                    nextId := g.nextId + |s.spawned|, drawn := g.drawn + s.used)
  {
    var es := g.enemies[j := s.enemy] + s.spawned;
    assert es[..j] == g.enemies[..j];
    g.(enemies := es, projectiles := g.projectiles + s.shots, nextId := g.nextId + |s.spawned|,
       drawn := g.drawn + s.used)
  }

  /** Contact between the player and the enemy at `j`: roll dodge and
      shield, hurt the player only when both fail, and kill the enemy
      whatever the rolls said. A killed player ends the game; otherwise the
      kill is counted. */
  function Touch(g: Round, j: nat, rng: Rng): (r: Round)
    requires j < |g.enemies|
    ensures j <= |r.enemies| && r.enemies[..j] == g.enemies[..j]
    ensures Keeps(g, r) && r.projectiles == g.projectiles
    ensures r.session.state == Playing ==> r.session == g.session
    ensures WholeMoney(g.pickups) ==> WholeMoney(r.pickups)
    ensures r.session == LostSession(g.session) || (r.totalKills == g.totalKills + 1 && |r.enemies| == |g.enemies| - 1)
    ensures var o := ContactOutcome(StatsOf(g).dodge, g.hero.items.shieldGenerator, rng(g.drawn), rng(g.drawn + 1));
      o != Hurt && PlayerBody(g).alive ==> r.session == g.session && r.hero == Vampire(g.hero)
    ensures var o := ContactOutcome(StatsOf(g).dodge, g.hero.items.shieldGenerator, rng(g.drawn), rng(g.drawn + 1));
      var hurt := g.hero.(player := g.hero.player.(body := TakeDamage(PlayerBody(g), g.enemies[j].stats.damage)));
      o == Hurt ==> r.session == LostSession(g.session) || r.hero == Vampire(hurt)
  {
    var e := g.enemies[j];
    var dodge := StatsOf(g).dodge;
    var shield := g.hero.items.shieldGenerator;
    var r1 := rng(g.drawn);
    var o := ContactOutcome(dodge, shield, r1, rng(g.drawn + 1));
    var b := if o == Hurt then TakeDamage(PlayerBody(g), e.stats.damage) else PlayerBody(g);
    var g1 := WithPlayerBody(g, b).(drawn := g.drawn + ContactRolls(dodge, shield, r1),
                                    enemies := g.enemies[j := e.(body := e.body.(alive := false))]);
    assert g1.enemies[..j] == g.enemies[..j];
    if !b.alive then Lose(g1) else Kill(g1, j, rng)
  }

  /** One turn of the enemy loop at index `j`: the enemy's update, then
      contact with the player, checked on the hitbox alone whether the enemy
      is alive or not; a dead enemy is counted and removed. */
  function EnemyTurn(g: Round, j: nat, dt: real, env: Env): (r: Round)
    requires j < |g.enemies|
    ensures j <= |r.enemies| && r.enemies[..j] == g.enemies[..j]
    ensures Keeps(g, r)
    ensures r.session.state == Playing ==> r.session == g.session
    ensures |g.projectiles| <= |r.projectiles| && r.projectiles[..|g.projectiles|] == g.projectiles
    ensures WholeMoney(g.pickups) ==> WholeMoney(r.pickups)
    ensures var s := EnemyStep(g, j, dt, env);
      E.EnemyCollides(s.enemy, PlayerBody(g)) ==>
        r.session == LostSession(g.session)
        || (r.totalKills == g.totalKills + 1 && |r.enemies| == |g.enemies| + |s.spawned| - 1)
    ensures var s := EnemyStep(g, j, dt, env);
      !E.EnemyCollides(s.enemy, PlayerBody(g)) ==> r.hero == g.hero || r.hero == Vampire(g.hero)
  {
    var s := EnemyStep(g, j, dt, env);
    var g1 := Arrive(g, j, s);
    if E.EnemyCollides(s.enemy, PlayerBody(g)) then Touch(g1, j, env.rng)
    else if !s.enemy.body.alive then Kill(g1, j, env.rng)
    else g1
  }

  /** The enemy loop, from index `i - 1` down to 0; enemies added during the
      loop sit past `i` and wait for the next frame. A lost game stops it. */
  function EnemyLoop(g: Round, i: nat, dt: real, env: Env): (r: Round)
    requires i <= |g.enemies|
    ensures Keeps(g, r)
    ensures g.session.state == Playing && r.session.state == Playing ==> r.session == g.session
    ensures |g.projectiles| <= |r.projectiles| && r.projectiles[..|g.projectiles|] == g.projectiles
    ensures WholeMoney(g.pickups) ==> WholeMoney(r.pickups)
    decreases i
  {
    if i == 0 || g.session.state != Playing then g
    else
      var g1 := EnemyTurn(g, i - 1, dt, env);
      var r := EnemyLoop(g1, i - 1, dt, env);
      assert r.projectiles[..|g.projectiles|] == r.projectiles[..|g1.projectiles|][..|g.projectiles|];
      r
  }

  // ---------------------------------------------------------------------
  // The projectile pass

  /** What a player shot can change: the enemies, the player's body (life
      steal) and the position in the random stream. */
  datatype Clash = Clash(enemies: seq<E.Enemy>, player: Body, drawn: nat)

  /** Piercing and boomerang shots fly on through what they hit. */
  predicate Passes(p: P.Projectile)
  {
    p.fx.piercing || p.boom.on
  }

  function Dead(p: P.Projectile): P.Projectile
  {
    p.(body := p.body.(alive := false))
  }

  /** A critical hit when `roll * 100 < critChance`: the damage times
      `critDamage / 100`. */
  function Crit(damage: real, roll: Roll, s: Stats): (d: real)
    ensures d == damage || d == damage * (s.critDamage / 100.0)
    ensures s.critChance >= 100.0 ==> d == damage * (s.critDamage / 100.0)
    ensures s.critChance <= 0.0 ==> d == damage
  {
    if roll as real * 100.0 < s.critChance then damage * (s.critDamage / 100.0) else damage
  }

  /** Life Steal heals 5% of the damage dealt, but only when that is more
      than half a point. */
  function LifeSteal(b: Body, damage: real): (r: Body)
    ensures damage <= 10.0 ==> r == b
    ensures damage > 10.0 ==> r == Heal(b, damage * LifeStealPercent)
  {
    var amount := damage * LifeStealPercent;
    if amount > LifeStealMinimum then Heal(b, amount) else b
  }

  /** The explosion around `center`: every other living enemy within the
      radius takes the explosion damage. */
  function Blast(es: seq<E.Enemy>, k: nat, center: Vec, radius: real, damage: real): (r: seq<E.Enemy>)
    ensures |r| == |es|
    ensures forall m :: 0 <= m < |es| ==>
      r[m] == es[m]
      || (&& m != k && es[m].body.alive && Within(DistSq(es[m].body.pos, center), radius)
          && r[m] == es[m].(body := TakeDamage(es[m].body, damage)))
    ensures k < |es| ==> r[k] == es[k]
  {
    seq(|es|, m requires 0 <= m < |es| =>
      if m != k && es[m].body.alive && Within(DistSq(es[m].body.pos, center), radius)
      then es[m].(body := TakeDamage(es[m].body, damage)) else es[m])
  }

  /** A blast never reaches a dead enemy or one outside its radius. */
  lemma BlastSparesTheFar(es: seq<E.Enemy>, k: nat, center: Vec, radius: real, damage: real, m: nat)
    requires m < |es|
    requires !es[m].body.alive || radius < 0.0 || DistSq(es[m].body.pos, center) > radius * radius
    ensures Blast(es, k, center, radius, damage)[m] == es[m]
  {
  }

  /** A player shot hitting enemy `k`: the crit roll, the damage, life
      steal, and the explosion if the shot is explosive. */
  function Strike(c: Clash, p: P.Projectile, k: nat, s: Stats, lifeSteal: bool, rng: Rng): (r: Clash)
    requires k < |c.enemies|
    ensures |r.enemies| == |c.enemies| && r.drawn == c.drawn + 1
    ensures var d := Crit(p.damage, rng(c.drawn), s);
      r.enemies[k] == c.enemies[k].(body := TakeDamage(c.enemies[k].body, d))
      && r.player == (if lifeSteal then LifeSteal(c.player, d) else c.player)
    ensures !p.fx.explosive ==> r.enemies == c.enemies[k := r.enemies[k]]
    ensures forall m :: 0 <= m < |c.enemies| ==>
      E.SameEnemy(c.enemies[m], r.enemies[m]) && r.enemies[m].body.pos == c.enemies[m].body.pos
  {
    var d := Crit(p.damage, rng(c.drawn), s);
    var e := c.enemies[k];
    var es := c.enemies[k := e.(body := TakeDamage(e.body, d))];
    var es2 := if p.fx.explosive then Blast(es, k, p.body.pos, p.fx.explosionRadius, p.fx.explosionDamage) else es;
    Clash(es2, if lifeSteal then LifeSteal(c.player, d) else c.player, c.drawn + 1)
  }

  /** The walk of a player shot over the enemies from index `k` on: skip
      the ones a piercing or boomerang shot has already hit, strike each
      living one it touches; a piercing or boomerang shot remembers it and
      goes on, any other shot dies and stops. */
  function Sweep(c: Clash, p: P.Projectile, k: nat, s: Stats, lifeSteal: bool, rng: Rng): (r: (Clash, P.Projectile))
    requires k <= |c.enemies|
    ensures |r.0.enemies| == |c.enemies| && c.drawn <= r.0.drawn
    ensures forall m :: 0 <= m < |c.enemies| ==>
      E.SameEnemy(c.enemies[m], r.0.enemies[m]) && r.0.enemies[m].body.pos == c.enemies[m].body.pos
    ensures !Passes(p) ==> r.1 == p || r.1 == Dead(p)
    ensures !Passes(p) && r.0 != c ==> r.1 == Dead(p)
    ensures !Passes(p) && !p.fx.explosive ==> forall m, n :: k <= m < n < |c.enemies| && r.0.enemies[m] != c.enemies[m] ==>
      r.0.enemies[n] == c.enemies[n]
    ensures !p.fx.explosive ==> forall m :: 0 <= m < k ==> r.0.enemies[m] == c.enemies[m]
    ensures Passes(p) ==> r.1 == p.(hitEnemies := r.1.hitEnemies) && p.hitEnemies <= r.1.hitEnemies
    ensures Passes(p) && !p.fx.explosive ==> forall m :: 0 <= m < |c.enemies| && c.enemies[m].id in p.hitEnemies ==>
      r.0.enemies[m] == c.enemies[m]
    ensures Passes(p) && !p.fx.explosive ==> forall m :: 0 <= m < |c.enemies| && r.0.enemies[m] != c.enemies[m] ==>
      c.enemies[m].id in r.1.hitEnemies
    decreases |c.enemies| - k
  {
    if k == |c.enemies| then (c, p)
    else
      var e := c.enemies[k];
      if Passes(p) && e.id in p.hitEnemies then Sweep(c, p, k + 1, s, lifeSteal, rng)
      else if e.body.alive && Collides(p.body, e.body) then
        var c1 := Strike(c, p, k, s, lifeSteal, rng);
        if Passes(p) then Sweep(c1, p.(hitEnemies := p.hitEnemies + {e.id}), k + 1, s, lifeSteal, rng)
        else (c1, Dead(p))
      else Sweep(c, p, k + 1, s, lifeSteal, rng)
  }

  /** The shot at index `j` after its turn: kept if alive, spliced out if
      not. */
  function Settle(ps: seq<P.Projectile>, j: nat, p: P.Projectile): (r: seq<P.Projectile>)
    requires j < |ps|
    ensures p.body.alive ==> r == ps[j := p]
    ensures !p.body.alive ==> r == ps[..j] + ps[j + 1..]
    ensures j <= |r| && r[..j] == ps[..j]
  {
    if p.body.alive then ps[j := p] else ps[..j] + ps[j + 1..]
  }

  /** What a projectile turn at `j` keeps: the shots before `j`, the fields
      of `Keeps`, the pickups and kills, and every enemy's identity and
      place. */
  predicate ShotTurn(g: Round, r: Round, j: nat)
  {
    && j <= |g.projectiles| && j <= |r.projectiles| && r.projectiles[..j] == g.projectiles[..j]
    && Keeps(g, r) && r.pickups == g.pickups && r.totalKills == g.totalKills
    && (r.session.state == Playing ==> r.session == g.session)
    && |r.enemies| == |g.enemies|
    && forall m :: 0 <= m < |g.enemies| ==>
         E.SameEnemy(g.enemies[m], r.enemies[m]) && r.enemies[m].body.pos == g.enemies[m].body.pos
  }

  /** A player shot's turn: it sweeps the enemies, and a dead shot is
      removed. */
  function PlayerShot(g: Round, j: nat, p: P.Projectile, rng: Rng): (r: Round)
    requires j < |g.projectiles|
    ensures ShotTurn(g, r, j) && r.session == g.session
    ensures var (c, p1) := Sweep(Clash(g.enemies, PlayerBody(g), g.drawn), p, 0, StatsOf(g), g.hero.items.lifeSteal, rng);
      r.enemies == c.enemies && PlayerBody(r) == c.player && r.projectiles == Settle(g.projectiles, j, p1)
  {
    var (c, p1) := Sweep(Clash(g.enemies, PlayerBody(g), g.drawn), p, 0, StatsOf(g), g.hero.items.lifeSteal, rng);
    WithPlayerBody(g, c.player).(enemies := c.enemies, drawn := c.drawn,
                                 projectiles := Settle(g.projectiles, j, p1))
  }

  /** An enemy shot's turn: touching the living player it is dodged or
      hurts (and a killed player ends the game), and it dies either way; a
      dead shot is removed. */
  function EnemyShot(g: Round, j: nat, p: P.Projectile, rng: Rng): (r: Round)
    requires j < |g.projectiles|
    ensures ShotTurn(g, r, j) && r.enemies == g.enemies
    ensures !(PlayerBody(g).alive && Collides(p.body, PlayerBody(g))) ==>
      r == g.(projectiles := Settle(g.projectiles, j, p))
    ensures PlayerBody(g).alive && Collides(p.body, PlayerBody(g)) && rng(g.drawn) as real * 100.0 < StatsOf(g).dodge ==>
      r.hero == g.hero && r.projectiles == Settle(g.projectiles, j, Dead(p))
    ensures PlayerBody(g).alive && Collides(p.body, PlayerBody(g)) && rng(g.drawn) as real * 100.0 >= StatsOf(g).dodge ==>
      PlayerBody(r) == TakeDamage(PlayerBody(g), p.damage)
      && r.session == (if PlayerBody(r).alive then g.session else LostSession(g.session))
  {
    if PlayerBody(g).alive && Collides(p.body, PlayerBody(g)) then
      var g1 := g.(drawn := g.drawn + 1);
      if rng(g.drawn) as real * 100.0 < StatsOf(g).dodge then
        g1.(projectiles := Settle(g.projectiles, j, Dead(p)))
      else
        var b := TakeDamage(PlayerBody(g), p.damage);
        if !b.alive then Lose(WithPlayerBody(g1, b).(projectiles := g.projectiles[j := p]))
        else WithPlayerBody(g1, b).(projectiles := Settle(g.projectiles, j, Dead(p)))
    else g.(projectiles := Settle(g.projectiles, j, p))
  }

  /** One turn of the projectile loop at index `j`: the shot's own update,
      then its hits by owner. A shot that expired in its own update still
      hits this frame. */
  function ProjectileTurn(g: Round, j: nat, dt: real, env: Env): (r: Round)
    requires j < |g.projectiles|
    ensures ShotTurn(g, r, j)
  {
    var p := P.Update(g.projectiles[j], dt, CanvasWidth, AreaBottom, Targets(g.enemies), env.trig);
    if p.owner == P.PlayerOwned then PlayerShot(g, j, p, env.rng) else EnemyShot(g, j, p, env.rng)
  }

  /** The projectile loop, from index `i - 1` down to 0. A lost game stops
      it. */
  function ProjectileLoop(g: Round, i: nat, dt: real, env: Env): (r: Round)
    requires i <= |g.projectiles|
    ensures Keeps(g, r) && r.pickups == g.pickups && r.totalKills == g.totalKills
    ensures g.session.state == Playing && r.session.state == Playing ==> r.session == g.session
    ensures |r.enemies| == |g.enemies|
    decreases i
  {
    if i == 0 || g.session.state != Playing then g
    else ProjectileLoop(ProjectileTurn(g, i - 1, dt, env), i - 1, dt, env)
  }

  // ---------------------------------------------------------------------
  // The pickup pass

  /** Within the pickup range of the player's centre, or touching the
      player. */
  predicate Reached(q: Pk.Pickup, player: Body, range: real)
  {
    Within(DistSq(q.body.pos, player.pos), range) || Collides(q.body, player)
  }

  /** One turn of the pickup loop at index `j`: the pickup ages, and when
      the player reaches it (even if it expired just now) its money is
      earned or its health healed and it is gone; an expired pickup out of
      reach is removed. */
  function PickupTurn(g: Round, j: nat, dt: real): (r: Round)
    requires j < |g.pickups|
    ensures j <= |r.pickups| && r.pickups[..j] == g.pickups[..j]
    ensures var q := Pk.Update(g.pickups[j], dt);
      Reached(q, PlayerBody(g), StatsOf(g).pickupRange) ==>
        && r.pickups == g.pickups[..j] + g.pickups[j + 1..]
        && (q.kind == Pk.MoneyPickup ==> r.moneyEarned == g.moneyEarned + q.value.Floor && r.hero == g.hero)
        && (q.kind == Pk.HealthPickup ==> r.moneyEarned == g.moneyEarned && r.hero.player.body == Heal(PlayerBody(g), q.value))
    ensures var q := Pk.Update(g.pickups[j], dt);
      !Reached(q, PlayerBody(g), StatsOf(g).pickupRange) ==>
        && r.moneyEarned == g.moneyEarned && r.hero == g.hero
        && r.pickups == (if q.body.alive then g.pickups[j := q] else g.pickups[..j] + g.pickups[j + 1..])
    ensures r.hero.player.speed == g.hero.player.speed && r.hero.items == g.hero.items
    ensures r.(pickups := g.pickups, moneyEarned := g.moneyEarned, hero := g.hero) == g
    ensures WholeMoney(g.pickups) ==> WholeMoney(r.pickups)
  {
    var q := Pk.Update(g.pickups[j], dt);
    var rest := g.pickups[..j] + g.pickups[j + 1..];
    assert WholeMoney(g.pickups) ==> WholeMoney(g.pickups[j := q]) && WholeMoney(rest) by {
      if WholeMoney(g.pickups) {
        forall i | 0 <= i < |rest| && rest[i].kind == Pk.MoneyPickup
          ensures rest[i].value == rest[i].value.Floor as real
        {
          if i < j { assert rest[i] == g.pickups[i]; } else { assert rest[i] == g.pickups[i + 1]; }
        }
      }
    }
    if Reached(q, PlayerBody(g), StatsOf(g).pickupRange) then
      var g1 := if q.kind == Pk.MoneyPickup then g.(moneyEarned := g.moneyEarned + q.value.Floor)
                else WithPlayerBody(g, Heal(PlayerBody(g), q.value));
      g1.(pickups := rest)
    else if q.body.alive then g.(pickups := g.pickups[j := q])
    else g.(pickups := rest)
  }

  /** The pickup loop, from index `i - 1` down to 0. */
  function PickupLoop(g: Round, i: nat, dt: real): (r: Round)
    requires i <= |g.pickups|
    ensures r.(pickups := g.pickups, moneyEarned := g.moneyEarned, hero := g.hero) == g
    ensures r.hero.player.speed == g.hero.player.speed && r.hero.items == g.hero.items
    ensures WholeMoney(g.pickups) ==> WholeMoney(r.pickups)
    decreases i
  {
    if i == 0 then g else PickupLoop(PickupTurn(g, i - 1, dt), i - 1, dt)
  }

  /** An expired pickup the player stands on is still collected: a money
      pickup whose lifetime runs out this frame still pays. */
  lemma ExpiredPickupStillPays(g: Round, j: nat, dt: real)
    requires j < |g.pickups| && g.pickups[j].kind == Pk.MoneyPickup
    requires g.pickups[j].lifetime - dt <= 0.0
    requires Reached(g.pickups[j], PlayerBody(g), StatsOf(g).pickupRange)
    ensures PickupTurn(g, j, dt).moneyEarned == g.moneyEarned + g.pickups[j].value.Floor
  {
    var q := Pk.Update(g.pickups[j], dt);
    assert q.body.pos == g.pickups[j].body.pos && q.body.size == g.pickups[j].body.size;
  }

  /** With whole money values, collecting a money pickup earns exactly its
      value. */
  lemma CollectEarnsValue(g: Round, j: nat, dt: real)
    requires j < |g.pickups| && WholeMoney(g.pickups) && g.pickups[j].kind == Pk.MoneyPickup
    requires Reached(Pk.Update(g.pickups[j], dt), PlayerBody(g), StatsOf(g).pickupRange)
    ensures PickupTurn(g, j, dt).moneyEarned as real == g.moneyEarned as real + g.pickups[j].value
  {
  }

  // ---------------------------------------------------------------------
  // The frame

  /** The enemies as the weapons and shots see them. */
  function Targets(es: seq<E.Enemy>): (ts: seq<Target>)
    ensures |ts| == |es| && forall i :: 0 <= i < |es| ==> ts[i] == Target(es[i].id, es[i].body)
  {
    seq(|es|, i requires 0 <= i < |es| => Target(es[i].id, es[i].body))
  }

  /** The weapons' damage written back onto the enemies. */
  function WriteBack(es: seq<E.Enemy>, ts: seq<Target>): (r: seq<E.Enemy>)
    requires |ts| == |es|
    ensures |r| == |es| && forall i :: 0 <= i < |es| ==> r[i] == es[i].(body := ts[i].body)
  {
    seq(|es|, i requires 0 <= i < |es| => es[i].(body := ts[i].body))
  }

  /** What the weapons read from the player. */
  function ShooterOf(g: Round): W.Shooter
  {
    var h := g.hero;
    W.Shooter(h.player.body.pos, h.player.aimAngle, StatsOf(g).damage, StatsOf(g).fireRate,
              h.items.bounceHouse, h.items.bounceHouseStacks, h.items.explosiveRounds, h.items.doubleTap)
  }

  /** The player moves inside the play area below the top bar. */
  function MovePlayer(g: Round, dt: real, env: Env): (r: Round)
    ensures r == g.(hero := r.hero) && r.hero == g.hero.(player := r.hero.player)
    ensures r.hero.player.body.health == PlayerBody(g).health && r.hero.player.body.alive == PlayerBody(g).alive
  {
    g.(hero := g.hero.(player := Pl.Update(g.hero.player, dt, env.held, env.mouse, env.trig,
                                           CanvasWidth, AreaBottom, UiBarHeight)))
  }

  /** The spawner's turn: its new enemies join the end of the list with
      fresh identities. */
  function SpawnPhase(g: Round, dt: real, env: Env): (r: Round)
    ensures |g.enemies| <= |r.enemies| && r.enemies[..|g.enemies|] == g.enemies
    ensures forall j :: |g.enemies| <= j < |r.enemies| ==> r.enemies[j].id == g.nextId + (j - |g.enemies|)
    ensures r.nextId == g.nextId + (|r.enemies| - |g.enemies|) && g.drawn <= r.drawn
    ensures r == g.(spawner := r.spawner, enemies := r.enemies, nextId := r.nextId, drawn := r.drawn)
  {
    var t := Spawn.Update(g.spawner, dt, CanvasWidth, AreaBottom, g.nextId, Skip(env.rng, g.drawn), env.trig);
    g.(spawner := t.spawner, enemies := g.enemies + t.batch.enemies, nextId := g.nextId + |t.batch.enemies|,
       drawn := g.drawn + t.batch.used)
  }

  /** The weapons' turn: new shots join the end of the projectile list,
      chain lightning's damage lands on the enemies, and an exception halts
      the frame. */
  function WeaponPhase(g: Round, dt: real, env: Env): (r: Round)
    requires Armed(g)
    ensures |r.weapons| == |g.weapons| && forall i :: 0 <= i < |g.weapons| ==> W.SameWeapon(g.weapons[i], r.weapons[i])
    ensures |r.enemies| == |g.enemies| && forall i :: 0 <= i < |g.enemies| ==>
      r.enemies[i] == g.enemies[i].(body := r.enemies[i].body) && r.enemies[i].body.pos == g.enemies[i].body.pos
    ensures |g.projectiles| <= |r.projectiles| && r.projectiles[..|g.projectiles|] == g.projectiles
    ensures |g.enemies| == 0 ==> r == g
    ensures r == g.(weapons := r.weapons, enemies := r.enemies, projectiles := r.projectiles, drawn := r.drawn, halted := r.halted)
    ensures r.halted == g.halted || g.drawn <= r.drawn
  {
    var s := ShooterOf(g);
    var ts := Targets(g.enemies);
    assert forall i :: 0 <= i < |g.weapons| ==> W.FireRate(g.weapons[i], s) > 0.0 by {
      forall i | 0 <= i < |g.weapons| ensures W.FireRate(g.weapons[i], s) > 0.0 {
        PositiveProduct(g.weapons[i].baseFireRate, s.fireRate);
      }
    }
    var (ws, v) := W.SystemUpdate(g.weapons, dt, s, ts, Skip(env.rng, g.drawn), true, env.trig);
    W.SystemKeepsEnemies(g.weapons, dt, s, ts, Skip(env.rng, g.drawn), true, env.trig);
    if |g.enemies| == 0 then g
    else
      g.(weapons := ws, enemies := WriteBack(g.enemies, v.enemies), projectiles := g.projectiles + v.shots,
         drawn := g.drawn + v.used, halted := v.raised)
  }

  lemma PositiveProduct(a: real, b: real)
    requires a > 0.0 && b > 0.0
    ensures a * b > 0.0
  {
  }

  /** Everything after the timer: adrenaline, movement, spawning, the
      weapons (an exception ends the frame there), then the enemy,
      projectile and pickup passes, a lost game ending the frame early. */
  function Combat(g: Round, dt: real, env: Env): (r: Round)
    requires Armed(g)
    requires g.session.state == Playing
    ensures r.session == g.session || r.session == LostSession(g.session)
    ensures |r.weapons| == |g.weapons| && forall i :: 0 <= i < |g.weapons| ==> W.SameWeapon(g.weapons[i], r.weapons[i])
    ensures r.roundTimer == g.roundTimer && r.paused == g.paused
    ensures WholeMoney(g.pickups) ==> WholeMoney(r.pickups)
    ensures g.drawn <= r.drawn && g.nextId <= r.nextId && g.totalKills <= r.totalKills
  {
    var g1 := MovePlayer(g.(hero := Adrenaline(g.hero)), dt, env);
    var g2 := SpawnPhase(g1, dt, env);
    var g3 := WeaponPhase(g2, dt, env);
    if g3.halted then g3
    else
      var g4 := EnemyLoop(g3, |g3.enemies|, dt, env);
      if g4.session.state != Playing then g4
      else
        var g5 := ProjectileLoop(g4, |g4.projectiles|, dt, env);
        if g5.session.state != Playing then g5
        else PickupLoop(g5, |g5.pickups|, dt)
  }

  /** `update`: nothing unless playing and not paused; otherwise regenerate,
      run the timer down (ending the round when it runs out, and the frame
      with it), and then the combat of the frame. */
  function Update(g: Round, dt: real, env: Env): (r: Round)
    requires 0.0 <= dt <= MaxFrame
    requires Armed(g)
    ensures g.session.state != Playing || g.paused ==> r == g
    ensures g.session.state == Playing && !g.paused ==>
      (r.session.state == RoundComplete <==> g.roundTimer - dt <= 0.0)
    ensures g.session.state == Playing && !g.paused && g.roundTimer - dt <= 0.0 ==>
      r.session == CompleteRound(g).session && r.roundTimer == g.roundTimer - dt
    ensures g.session.state == Playing && !g.paused && g.roundTimer - dt > 0.0 ==>
      r.roundTimer == g.roundTimer - dt && (r.session == g.session || r.session == LostSession(g.session))
    ensures Armed(r)
    ensures WholeMoney(g.pickups) ==> WholeMoney(r.pickups)
    ensures g.drawn <= r.drawn && g.nextId <= r.nextId
  {
    if g.session.state != Playing || g.paused then g
    else
      var g1 := WithPlayerBody(g, Regen(PlayerBody(g), StatsOf(g).regeneration, dt)).(roundTimer := g.roundTimer - dt);
      assert Armed(g1) && g1.pickups == g.pickups;
      if g1.roundTimer <= 0.0 then CompleteRound(g1)
      else
        var r := Combat(g1, dt, env);
        StaysArmed(g1, r);
        r
  }

  /** Weapons that keep their rates, and a session that is kept or lost,
      keep a round armed: the wipe restores the base fire rate of 1. */
  lemma StaysArmed(g: Round, r: Round)
    requires Armed(g)
    requires |r.weapons| == |g.weapons| && forall i :: 0 <= i < |g.weapons| ==> W.SameWeapon(g.weapons[i], r.weapons[i])
    requires r.session == g.session || r.session == LostSession(g.session)
    ensures Armed(r)
  {
    assert forall i :: 0 <= i < |r.weapons| ==> r.weapons[i].baseFireRate == g.weapons[i].baseFireRate;
  }

  /** One animation frame: the elapsed time is cut to 1/15 s; once an
      exception has escaped `update` the loop has stopped and nothing
      changes any more. */
  function Frame(g: Round, elapsed: real, env: Env): (r: Round)
    requires elapsed >= 0.0
    requires Armed(g)
    ensures g.halted ==> r == g
    ensures !g.halted ==> r == Update(g, Min(elapsed, MaxFrame), env)
    ensures Armed(r)
  {
    if g.halted then g else Update(g, Min(elapsed, MaxFrame), env)
  }

  /** A run of animation frames. */
  datatype Tick = Tick(elapsed: real, env: Env)

  predicate ValidTicks(ts: seq<Tick>)
  {
    forall i :: 0 <= i < |ts| ==> ts[i].elapsed >= 0.0
  }

  function Run(g: Round, ts: seq<Tick>): (r: Round)
    requires Armed(g) && ValidTicks(ts)
    ensures Armed(r)
    decreases |ts|
  {
    if |ts| == 0 then g else Run(Frame(g, ts[0].elapsed, ts[0].env), ts[1..])
  }

  /** Once the round is over (completed, lost or left) no later frame
      changes anything: `completeRound` banks the money exactly once and
      `gameOver` wipes the progress exactly once. */
  lemma {:induction false} EndedRoundStaysEnded(g: Round, ts: seq<Tick>)
    requires Armed(g) && ValidTicks(ts)
    requires g.session.state != Playing
    ensures Run(g, ts) == g
    decreases |ts|
  {
    if |ts| > 0 {
      EndedRoundStaysEnded(Frame(g, ts[0].elapsed, ts[0].env), ts[1..]);
    }
  }

  /** The frame that finds the timer run out banks the round's money and
      unlocks the next level, and every frame after it is idle. */
  lemma RoundCompletesOnce(g: Round, elapsed: real, env: Env, later: seq<Tick>)
    requires Armed(g) && ValidTicks(later) && elapsed >= 0.0
    requires g.session.state == Playing && !g.paused && !g.halted
    requires g.roundTimer <= Min(elapsed, MaxFrame)
    ensures var r := Frame(g, elapsed, env);
      && r.session.state == RoundComplete
      && r.session.data.money == g.session.data.money + g.moneyEarned
      && Run(r, later) == r
  {
    EndedRoundStaysEnded(Frame(g, elapsed, env), later);
  }
}
