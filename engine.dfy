/**
 * The game-state engine of main.js as functions on values: the profile
 * record `state`, the optional dungeon run `currentRun`, and one function
 * per operation giving the new values from the old ones.  Randomness and
 * the clock are parameters: `roll` is `Math.floor(Math.random() * 4)`,
 * `spread` is the rounded random part of the enemy's damage, `index` is the
 * pool position drawn for an artifact, `now` is `Date.now()`.
 */
module Engine {
  import opened Wrappers
  import opened Formulas
  import opened Artifacts

  datatype Stats = Stats(wins: int, losses: int, bestTier: int)

  /** The persistent profile, field for field as in `defaultState`. */
  datatype Profile = Profile(
    level: int,
    exp: int,
    expToNext: int,
    hpMax: int,
    hpCurrent: int,
    attack: int,
    gold: int,
    crystals: int,
    energy: int,
    energyMax: int,
    stats: Stats,
    artifacts: seq<Artifact>,
    lastOfflineClaim: int)

  /** The `currentRun` record. */
  datatype Run = Run(tier: int, enemyHp: int, room: int, rewardGold: int, rewardExp: int, alive: bool)

  /** The whole game state: the profile and the run, `None` when no run is active. */
  datatype Snapshot = Snapshot(profile: Profile, run: Option<Run>)

  const DefaultProfile: Profile :=
    Profile(1, 0, 100, 50, 50, 8, 300, 0, 5, 5, Stats(0, 0, 0), [], 0)

  /** Minimum time between two offline claims: three minutes, in milliseconds. */
  const MinOfflineInterval: int := 3 * 60 * 1000

  // ---------------------------------------------------------------------
  // Experience and levels

  /** One pass of the leveling loop of `gainExp`. */
  function LevelUp(p: Profile): Profile {
    p.(exp := p.exp - p.expToNext,
       level := p.level + 1,
       hpMax := p.hpMax + 6,
       attack := p.attack + 2,
       hpCurrent := p.hpMax + 6,
       expToNext := GrowThreshold(p.expToNext))
  }

  /** The threshold after `n` level-ups starting from threshold `t`. */
  function ThresholdAfter(t: int, n: nat): int
    decreases n
  {
    if n == 0 then t else ThresholdAfter(GrowThreshold(t), n - 1)
  }

  /** The experience that `n` level-ups starting from threshold `t` consume. */
  function ThresholdSum(t: int, n: nat): int
    decreases n
  {
    if n == 0 then 0 else t + ThresholdSum(GrowThreshold(t), n - 1)
  }

  /** The leveling loop: level up while the experience reaches the threshold. */
  function Settle(p: Profile): (r: Profile)
    requires p.expToNext >= 1
    decreases p.exp
    ensures r.exp < r.expToNext
    ensures r.expToNext >= p.expToNext
  {
    if p.exp >= p.expToNext then Settle(LevelUp(p)) else p
  }

  /**
   * The leveling law: with `n` the number of level-ups, the hero gained
   * `n` levels, `6 * n` maximum HP and `2 * n` attack, consumed exactly the
   * first `n` thresholds, holds the `n`-th grown threshold, is fully healed
   * if `n > 0`, and no other field changed.
   */
  lemma {:induction false} SettleLaw(p: Profile)
    requires p.expToNext >= 1
    decreases p.exp
    ensures var r, n := Settle(p), Settle(p).level - p.level;
      && n >= 0
      && r.hpMax == p.hpMax + 6 * n
      && r.attack == p.attack + 2 * n
      && r.expToNext == ThresholdAfter(p.expToNext, n)
      && p.exp == r.exp + ThresholdSum(p.expToNext, n)
      && (n > 0 ==> r.hpCurrent == r.hpMax && r.exp >= 0)
      && (n == 0 ==> r == p)
      && r == p.(level := r.level, exp := r.exp, expToNext := r.expToNext,
                 hpMax := r.hpMax, hpCurrent := r.hpCurrent, attack := r.attack)
  {
    if p.exp >= p.expToNext {
      var q := LevelUp(p);
      SettleLaw(q);
      var n := Settle(q).level - q.level;
      assert ThresholdAfter(p.expToNext, n + 1) == ThresholdAfter(q.expToNext, n);
      assert ThresholdSum(p.expToNext, n + 1) == p.expToNext + ThresholdSum(q.expToNext, n);
    }
  }

  /** `gainExp(amount)`. */
  function GainExp(p: Profile, amount: int): (r: Profile)
    requires p.expToNext >= 1
    ensures r.exp < r.expToNext && r.expToNext >= p.expToNext
    ensures p.exp + amount < p.expToNext ==> r == p.(exp := p.exp + amount)
  {
    Settle(p.(exp := p.exp + amount))
  }

  // ---------------------------------------------------------------------
  // Runs and battle

  /** The run `startRun(tier)` creates for a hero of the given level. */
  function NewRun(tier: int, level: int): (r: Run)
    ensures r.tier == tier && r.room == 1 && r.alive
    ensures tier >= 1 && level >= 1 ==> r.enemyHp > 0 && r.rewardGold > 0 && r.rewardExp > 0
  {
    Run(tier, 30 + tier * 25 + level * 3, 1, 70 * tier + level * 10, 40 * tier + level * 8, true)
  }

  /** Number of rooms of a run of the given tier. */
  function RoomsTotal(tier: int): int { 3 + tier }

  /** `startRun(tier)`: refused without energy; otherwise replaces any run. */
  function StartRun(s: Snapshot, tier: int): (r: Snapshot)
    ensures s.profile.energy <= 0 ==> r == s
    ensures s.profile.energy > 0 ==>
      && r.run == Some(NewRun(tier, s.profile.level))
      && r.profile.energy == s.profile.energy - 1
      && r.profile.hpCurrent == r.profile.hpMax
      && r.profile == s.profile.(energy := r.profile.energy, hpCurrent := r.profile.hpCurrent)
  {
    if s.profile.energy <= 0 then s
    else Snapshot(s.profile.(energy := s.profile.energy - 1, hpCurrent := s.profile.hpMax),
                  Some(NewRun(tier, s.profile.level)))
  }

  /**
   * `endRun(success)`: a victory pays the run's full reward (the source's
   * "remaining" reward subtracts nothing) and records the win and the tier;
   * a defeat records a loss.  Both clear the run and leave at least 1 HP.
   */
  function EndRun(s: Snapshot, success: bool): (r: Snapshot)
    requires s.profile.expToNext >= 1
    ensures r.profile.expToNext >= s.profile.expToNext
    ensures s.run.None? ==> r == s
    ensures s.run.Some? ==> r.run.None? && r.profile.hpCurrent >= 1
  {
    match s.run
    case None => s
    case Some(run) =>
      var p :=
        if success then
          var paid := GainExp(s.profile.(gold := s.profile.gold + Max(0, run.rewardGold)),
                              Max(0, run.rewardExp));
          paid.(stats := paid.stats.(wins := paid.stats.wins + 1,
                                     bestTier := Max(paid.stats.bestTier, run.tier)))
        else
          s.profile.(stats := s.profile.stats.(losses := s.profile.stats.losses + 1));
      Snapshot(p.(hpCurrent := Max(1, p.hpCurrent)), None)
  }

  /** The damage `enemyAttack` deals in a run of the given tier. */
  function EnemyDamage(tier: int, spread: int): int { 4 + tier * 3 + spread }

  /** `enemyAttack()`: a hit on the hero; at 0 HP or below the run is lost. */
  function EnemyAttack(s: Snapshot, spread: int): (r: Snapshot)
    requires s.profile.expToNext >= 1
    ensures r.profile.expToNext >= s.profile.expToNext
    ensures s.run.None? || !s.run.value.alive ==> r == s
    ensures r.run.Some? ==> r.run == s.run
    ensures s.run.Some? && s.run.value.alive && r.run.Some? ==>
      r.profile.hpCurrent == s.profile.hpCurrent - EnemyDamage(s.run.value.tier, spread) > 0
  {
    match s.run
    case None => s
    case Some(run) =>
      if !run.alive then s
      else
        var hp := s.profile.hpCurrent - EnemyDamage(run.tier, spread);
        if hp <= 0 then EndRun(Snapshot(s.profile.(hpCurrent := 0), Some(run.(alive := false))), false)
        else Snapshot(s.profile.(hpCurrent := hp), s.run)
  }

  /** The profile after a cleared room's quarter of the rewards is paid. */
  function PaidForRoom(p: Profile, run: Run): (r: Profile)
    requires p.expToNext >= 1
    ensures r.exp < r.expToNext && r.expToNext >= p.expToNext
  {
    GainExp(p.(gold := p.gold + QuarterOf(run.rewardGold)), QuarterOf(run.rewardExp))
  }

  /**
   * `nextRoomOrEnd()`: pays a quarter of the run's rewards for the cleared
   * room, then ends the run as a victory in the last room, or moves to the
   * next room, scaling the (leftover) enemy HP and healing 5 HP.
   */
  function NextRoomOrEnd(s: Snapshot): (r: Snapshot)
    requires s.profile.expToNext >= 1
    ensures r.profile.expToNext >= s.profile.expToNext
    ensures s.run.None? ==> r == s
    ensures r.run.Some? ==>
      && s.run.Some?
      && r.run.value.room == s.run.value.room + 1 <= RoomsTotal(s.run.value.tier)
      && r.run.value.tier == s.run.value.tier
  {
    match s.run
    case None => s
    case Some(run) =>
      var p := PaidForRoom(s.profile, run);
      if run.room >= RoomsTotal(run.tier) then EndRun(Snapshot(p, s.run), true)
      else
        var room := run.room + 1;
        Snapshot(p.(hpCurrent := Min(p.hpMax, p.hpCurrent + 5)),
                 Some(run.(room := room, enemyHp := ScaleEnemyHp(run.enemyHp, room))))
  }

  /** The damage of the hero's attack, before it is subtracted from the enemy. */
  function HeroDamage(attack: int, isSkill: bool, roll: int): int {
    if isSkill then SkillDamage(attack + roll) else attack + roll
  }

  /**
   * The state right after the hero's blow in a live run: the skill costs
   * 2 HP (never below 1), the enemy loses the damage, and HP is clamped at 0.
   */
  function AfterBlow(p: Profile, run: Run, isSkill: bool, roll: int): (r: Snapshot)
    ensures r.profile == p.(hpCurrent := r.profile.hpCurrent)
    ensures r.run.Some? && r.run.value == run.(enemyHp := r.run.value.enemyHp)
    ensures isSkill ==> r.profile.hpCurrent >= 1
    ensures !isSkill && p.hpCurrent > 0 ==> r.profile.hpCurrent == p.hpCurrent
    ensures p.attack + roll >= 0 ==> r.run.value.enemyHp <= run.enemyHp - (p.attack + roll)
  {
    var hp := if isSkill then Max(1, p.hpCurrent - 2) else p.hpCurrent;
    Snapshot(p.(hpCurrent := if hp <= 0 then 0 else hp),
             Some(run.(enemyHp := run.enemyHp - HeroDamage(p.attack, isSkill, roll))))
  }

  /**
   * `playerAttack(isSkill)`: the hero hits.  A defeated enemy clears the
   * room; otherwise the enemy hits back.
   */
  function PlayerAttack(s: Snapshot, isSkill: bool, roll: int, spread: int): (r: Snapshot)
    requires s.profile.expToNext >= 1
    ensures r.profile.expToNext >= s.profile.expToNext
    ensures s.run.None? || !s.run.value.alive ==> r == s
    ensures r.run.Some? ==> s.run.Some? && r.run.value.tier == s.run.value.tier
  {
    match s.run
    case None => s
    case Some(run) =>
      if !run.alive then s
      else
        var s1 := AfterBlow(s.profile, run, isSkill, roll);
        if s1.run.value.enemyHp <= 0 then NextRoomOrEnd(s1) else EnemyAttack(s1, spread)
  }

  /** The flee button: ends an active run as a loss. */
  function Flee(s: Snapshot): (r: Snapshot)
    requires s.profile.expToNext >= 1
    ensures r.profile.expToNext >= s.profile.expToNext
    ensures s.run.None? ==> r == s
    ensures s.run.Some? ==> r.run.None? && r.profile.stats.losses == s.profile.stats.losses + 1
  {
    if s.run.None? then s else EndRun(s, false)
  }

  // ---------------------------------------------------------------------
  // Artifacts

  /**
   * `addRandomArtifact()` with pool position `index`: appends the artifact,
   * then tests its description against each of the five keys in turn.
   */
  function AddArtifact(p: Profile, index: int): (r: Profile)
    requires 0 <= index < |Pool|
    ensures r.expToNext == p.expToNext || r.expToNext >= 20
  {
    var pick := Pool[index];
    var p1 := p.(artifacts := p.artifacts + [pick]);
    var p2 := if Includes(pick.desc, ExpKey) then p1.(expToNext := Max(20, ShrinkThreshold(p1.expToNext))) else p1;
    var p3 := if Includes(pick.desc, Attack3Key) then p2.(attack := p2.attack + 3) else p2;
    var p4 := if Includes(pick.desc, Hp5Key) then p3.(hpMax := p3.hpMax + 5) else p3;
    var p5 := if Includes(pick.desc, Attack4Key) then p4.(attack := p4.attack + 4) else p4;
    if Includes(pick.desc, Gold200Key) then p5.(gold := p5.gold + 200) else p5
  }

  // ---------------------------------------------------------------------
  // Offline reward, upgrades and shop

  /** `claimOfflineReward()` at time `now`; a zero timestamp means "never claimed". */
  function ClaimOfflineReward(p: Profile, now: int): (r: Profile)
    ensures r == p <==> p.lastOfflineClaim != 0 && now - p.lastOfflineClaim < MinOfflineInterval
    ensures r != p ==>
      && r.lastOfflineClaim == now
      && r.gold == p.gold + 150
      && r.energy == Min(p.energyMax, p.energy + 1)
      && r == p.(lastOfflineClaim := r.lastOfflineClaim, gold := r.gold, energy := r.energy)
  {
    if p.lastOfflineClaim != 0 && now - p.lastOfflineClaim < MinOfflineInterval then p
    else p.(lastOfflineClaim := now, gold := p.gold + 150, energy := Min(p.energyMax, p.energy + 1))
  }

  /** `buyUpgrade(type, cost)`; an unknown type still takes the gold. */
  function BuyUpgrade(p: Profile, kind: string, cost: int): (r: Profile)
    ensures p.gold < cost ==> r == p
    ensures p.gold >= cost ==> r.gold == p.gold - cost
    ensures r.crystals == p.crystals && r.level == p.level && r.exp == p.exp && r.artifacts == p.artifacts
  {
    if p.gold < cost then p
    else
      var q := p.(gold := p.gold - cost);
      if kind == "hp" then q.(hpMax := q.hpMax + 10, hpCurrent := q.hpMax + 10)
      else if kind == "atk" then q.(attack := q.attack + 2)
      else if kind == "energy" then q.(energyMax := q.energyMax + 1, energy := q.energyMax + 1)
      else q
  }

  /** `buyCrystals(amount)`: the demo grants the crystals unconditionally. */
  function BuyCrystals(p: Profile, amount: int): (r: Profile)
    ensures r.crystals - p.crystals == amount
    ensures r == p.(crystals := r.crystals)
  {
    p.(crystals := p.crystals + amount)
  }

  /** `exchangeCrystalsForGold(cost, gain)`. */
  function ExchangeCrystalsForGold(p: Profile, cost: int, gain: int): (r: Profile)
    ensures p.crystals < cost ==> r == p
    ensures p.crystals >= cost ==> r.crystals + cost == p.crystals && r.gold == p.gold + gain
    ensures r == p.(crystals := r.crystals, gold := r.gold)
  {
    if p.crystals < cost then p
    else p.(crystals := p.crystals - cost, gold := p.gold + gain)
  }

  /** `buyEnergyWithCrystals(cost, gain)`: the energy is capped at the maximum. */
  function BuyEnergyWithCrystals(p: Profile, cost: int, gain: int): (r: Profile)
    ensures p.crystals < cost ==> r == p
    ensures p.crystals >= cost ==> r.crystals + cost == p.crystals
    ensures p.energy <= p.energyMax ==> r.energy <= r.energyMax
    ensures p.crystals >= cost && gain >= 0 && p.energy <= p.energyMax ==>
      && p.energy <= r.energy <= r.energyMax
      && (r.energy == p.energy + gain || r.energy == r.energyMax)
      && r.energy <= p.energy + gain
    ensures r == p.(crystals := r.crystals, energy := r.energy)
  {
    if p.crystals < cost then p
    else p.(crystals := p.crystals - cost, energy := Min(p.energyMax, p.energy + gain))
  }

  // ---------------------------------------------------------------------
  // The player's actions, as the click handlers forward them

  datatype Action =
    | StartRunAction(tier: int)
    | AttackAction(isSkill: bool, roll: int, spread: int)
    | FleeAction
    | ArtifactAction(index: int)
    | ClaimOfflineAction(now: int)
    | UpgradeAction(kind: string, cost: int)
    | BuyCrystalsAction(amount: int)
    | CrystalsForGoldAction(cost: int, gain: int)
    | CrystalsForEnergyAction(cost: int, gain: int)

  /**
   * The parameters the game can produce: the random draws in their ranges,
   * a positive tier from the difficulty buttons, non-negative amounts and
   * gains from the shop buttons.  Costs are unconstrained.
   */
  predicate Admissible(a: Action) {
    match a
    case StartRunAction(tier) => tier >= 1
    case AttackAction(_, roll, spread) => 0 <= roll <= 3 && 0 <= spread <= 4
    case FleeAction => true
    case ArtifactAction(index) => 0 <= index < |Pool|
    case ClaimOfflineAction(_) => true
    case UpgradeAction(_, _) => true
    case BuyCrystalsAction(amount) => amount >= 0
    case CrystalsForGoldAction(_, gain) => gain >= 0
    case CrystalsForEnergyAction(_, gain) => gain >= 0
  }

  function Step(s: Snapshot, a: Action): (r: Snapshot)
    requires s.profile.expToNext >= 1
    requires a.ArtifactAction? ==> 0 <= a.index < |Pool|
    ensures r.profile.expToNext >= 1
  {
    match a
    case StartRunAction(tier) => StartRun(s, tier)
    case AttackAction(isSkill, roll, spread) => PlayerAttack(s, isSkill, roll, spread)
    case FleeAction => Flee(s)
    case ArtifactAction(index) => Snapshot(AddArtifact(s.profile, index), s.run)
    case ClaimOfflineAction(now) => Snapshot(ClaimOfflineReward(s.profile, now), s.run)
    case UpgradeAction(kind, cost) => Snapshot(BuyUpgrade(s.profile, kind, cost), s.run)
    case BuyCrystalsAction(amount) => Snapshot(BuyCrystals(s.profile, amount), s.run)
    case CrystalsForGoldAction(cost, gain) => Snapshot(ExchangeCrystalsForGold(s.profile, cost, gain), s.run)
    case CrystalsForEnergyAction(cost, gain) => Snapshot(BuyEnergyWithCrystals(s.profile, cost, gain), s.run)
  }

  /** The state after a sequence of actions. */
  function Play(s: Snapshot, acts: seq<Action>): (r: Snapshot)
    requires s.profile.expToNext >= 1
    requires forall k :: 0 <= k < |acts| ==> Admissible(acts[k])
    ensures r.profile.expToNext >= 1
    decreases |acts|
  {
    if acts == [] then s
    else
      assert Admissible(acts[0]);
      Play(Step(s, acts[0]), acts[1..])
  }

  // ---------------------------------------------------------------------
  // The invariant of a well-formed game

  predicate RunWellformed(run: Run) {
    && run.tier >= 1
    && run.alive
    && 1 <= run.room <= RoomsTotal(run.tier)
    && run.rewardGold >= 0
    && run.rewardExp >= 0
    // after the first room the enemy starts from the scaled leftover HP
    && (run.room > 1 ==> run.enemyHp <= 0)
  }

  predicate ProfileWellformed(p: Profile) {
    && p.level >= 1
    && p.exp >= 0
    && p.expToNext >= 1
    && 1 <= p.hpCurrent <= p.hpMax
    && p.attack >= 0
    && p.gold >= 0
    && p.crystals >= 0
    && 0 <= p.energy <= p.energyMax
    && p.stats.wins >= 0
    && p.stats.losses >= 0
    && p.stats.bestTier >= 0
    && forall k :: 0 <= k < |p.artifacts| ==> p.artifacts[k] in Pool
  }

  predicate Wellformed(s: Snapshot) {
    ProfileWellformed(s.profile) && (s.run.Some? ==> RunWellformed(s.run.value))
  }
}
