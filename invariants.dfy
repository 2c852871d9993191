/**
 * What the engine of main.js guarantees: the leveling law, the outcome of
 * each battle step, the artifact effect table, the refused exchanges, and
 * the invariant of a well-formed game kept by every action and every
 * sequence of actions.
 */
module Invariants {
  import opened Wrappers
  import opened Formulas
  import opened Artifacts
  import opened Engine

  // ---------------------------------------------------------------------
  // Experience and levels

  /** A grant covering two thresholds yields at least two level-ups. */
  lemma {:induction false} MultiLevel(p: Profile)
    requires p.expToNext >= 1
    requires p.exp >= p.expToNext + GrowThreshold(p.expToNext)
    ensures Settle(p).level >= p.level + 2
  {
    var once := LevelUp(p);
    assert Settle(p) == Settle(once);
    assert once.exp >= once.expToNext;
    assert Settle(once) == Settle(LevelUp(once));
    SettleLaw(LevelUp(once));
  }

  /** A fresh hero granted 250 experience reaches level 3 with 25 experience left. */
  lemma FreshHeroLargeGrant()
    ensures var r := GainExp(DefaultProfile, 250);
      r.level == 3 && r.exp == 25 && r.expToNext == 156 && r.hpMax == 62 && r.hpCurrent == 62 && r.attack == 12
  {
    var p0 := DefaultProfile.(exp := 250);
    var p1 := LevelUp(p0);
    var p2 := LevelUp(p1);
    assert p2.exp == 25 && p2.expToNext == 156;
    assert Settle(p0) == Settle(p1) == Settle(p2) == p2;
  }

  /** A non-negative grant keeps the profile well-formed and touches only the leveling fields. */
  lemma GainExpWellformed(p: Profile, amount: int)
    requires ProfileWellformed(p) && amount >= 0
    ensures var r := GainExp(p, amount);
      && ProfileWellformed(r)
      && r.level >= p.level
      && r.hpCurrent >= p.hpCurrent
      && r == p.(level := r.level, exp := r.exp, expToNext := r.expToNext,
                 hpMax := r.hpMax, hpCurrent := r.hpCurrent, attack := r.attack)
  {
    SettleLaw(p.(exp := p.exp + amount));
  }

  /** Level-ups compose: `m` then `n` level-ups grow and consume the thresholds as `m + n` do. */
  lemma {:induction false} ThresholdChain(t: int, m: nat, n: nat)
    ensures ThresholdAfter(t, m + n) == ThresholdAfter(ThresholdAfter(t, m), n)
    ensures ThresholdSum(t, m + n) == ThresholdSum(t, m) + ThresholdSum(ThresholdAfter(t, m), n)
    decreases m
  {
    if m > 0 {
      ThresholdChain(GrowThreshold(t), m - 1, n);
      assert ThresholdAfter(t, m + n) == ThresholdAfter(GrowThreshold(t), m - 1 + n);
      assert ThresholdSum(t, m + n) == t + ThresholdSum(GrowThreshold(t), m - 1 + n);
    }
  }

  /**
   * The experience account from `p` to `r` balances with `earned`: the
   * hero only gained levels, the threshold is the one grown that many
   * times, and the old experience plus what was earned equals the new
   * experience plus the thresholds consumed by those levels.
   */
  predicate Accounted(p: Profile, r: Profile, earned: int) {
    && r.level >= p.level
    && r.expToNext == ThresholdAfter(p.expToNext, r.level - p.level)
    && p.exp + earned == r.exp + ThresholdSum(p.expToNext, r.level - p.level)
  }

  /** Two balanced accounts in a row make one. */
  lemma AccountsCompose(p: Profile, q: Profile, r: Profile, x: int, y: int)
    requires Accounted(p, q, x) && Accounted(q, r, y)
    ensures Accounted(p, r, x + y)
  {
    ThresholdChain(p.expToNext, q.level - p.level, r.level - q.level);
  }

  /**
   * A grant of `amount` experience is accounted exactly, and changes
   * nothing but the leveling fields.
   */
  lemma GainExpAccount(p: Profile, amount: int)
    requires p.expToNext >= 1
    ensures var r := GainExp(p, amount);
      && Accounted(p, r, amount)
      && r == p.(level := r.level, exp := r.exp, expToNext := r.expToNext,
                 hpMax := r.hpMax, hpCurrent := r.hpCurrent, attack := r.attack)
  {
    var q := p.(exp := p.exp + amount);
    SettleLaw(q);
    assert GainExp(p, amount) == Settle(q);
  }

  // ---------------------------------------------------------------------
  // Battle

  /** Scaling a defeated enemy's HP for the next room leaves it defeated. */
  lemma ScaledEnemyStaysDown(h: int, room: int)
    requires h <= 0 && room >= 0
    ensures ScaleEnemyHp(h, room) <= 0
  {
    assert h * (5 + room) <= 0;
  }

  /** A fresh hero starting a tier-1 run meets a 58-HP enemy; the run promises 80 gold and 48 experience over 4 rooms. */
  lemma FreshHeroFirstRun()
    ensures var r := StartRun(Snapshot(DefaultProfile, None), 1);
      && r.run == Some(Run(1, 58, 1, 80, 48, true))
      && r.profile == DefaultProfile.(energy := 4)
      && RoomsTotal(1) == 4
  {
  }

  /**
   * With energy, starting a run spends exactly one energy, heals the hero
   * fully and opens the first room of a fresh run; a run already in
   * progress is discarded without recording a win or a loss.
   */
  lemma StartRunOutcome(s: Snapshot, tier: int)
    requires Wellformed(s) && tier >= 1 && s.profile.energy > 0
    ensures var r, p := StartRun(s, tier), s.profile;
      && Wellformed(r)
      && r.profile == p.(energy := p.energy - 1, hpCurrent := p.hpMax)
      && r.run == Some(Run(tier, 30 + 25 * tier + 3 * p.level, 1, 70 * tier + 10 * p.level, 40 * tier + 8 * p.level, true))
      && r.profile.stats == p.stats
  {
  }

  /**
   * Ending a run clears it, leaves at least 1 HP and records exactly one
   * result: a victory pays the full reward once more and records the
   * tier; a defeat or flight changes nothing but the loss count.
   */
  lemma EndRunOutcome(s: Snapshot, success: bool)
    requires Wellformed(s) && s.run.Some?
    ensures var r, p, run := EndRun(s, success), s.profile, s.run.value;
      && Wellformed(r)
      && r.run.None?
      && r.profile.hpCurrent >= 1
      && r.profile.stats.wins + r.profile.stats.losses == p.stats.wins + p.stats.losses + 1
      && (success ==>
            && r.profile.stats == Stats(p.stats.wins + 1, p.stats.losses, Max(p.stats.bestTier, run.tier))
            && r.profile.gold == p.gold + run.rewardGold
            && r.profile.hpCurrent >= p.hpCurrent
            && r.profile == GainExp(p.(gold := r.profile.gold), run.rewardExp).(stats := r.profile.stats))
      && (!success ==> r.profile == p.(stats := p.stats.(losses := p.stats.losses + 1)))
  {
    if success {
      GainExpWellformed(s.profile.(gold := s.profile.gold + s.run.value.rewardGold), s.run.value.rewardExp);
    }
  }

  /**
   * The enemy's retaliation deals between 4 + 3 * tier and 8 + 3 * tier
   * damage; if that leaves no HP the run is lost and the hero keeps 1 HP.
   */
  lemma EnemyAttackOutcome(s: Snapshot, spread: int)
    requires Wellformed(s) && s.run.Some? && 0 <= spread <= 4
    ensures var r, p, run := EnemyAttack(s, spread), s.profile, s.run.value;
      var dmg := EnemyDamage(run.tier, spread);
      && 4 + 3 * run.tier <= dmg <= 8 + 3 * run.tier
      && Wellformed(r)
      && (p.hpCurrent - dmg > 0 ==> r == Snapshot(p.(hpCurrent := p.hpCurrent - dmg), s.run))
      && (p.hpCurrent - dmg <= 0 ==>
            r == Snapshot(p.(hpCurrent := 1, stats := p.stats.(losses := p.stats.losses + 1)), None))
  {
  }

  /** The entry condition of `nextRoomOrEnd`: a well-formed profile in a live run whose enemy is defeated. */
  predicate RoomCleared(s: Snapshot) {
    && ProfileWellformed(s.profile)
    && s.run.Some?
    && s.run.value.tier >= 1
    && s.run.value.alive
    && 1 <= s.run.value.room <= RoomsTotal(s.run.value.tier)
    && s.run.value.rewardGold >= 0
    && s.run.value.rewardExp >= 0
    && s.run.value.enemyHp <= 0
  }

  /**
   * The quarter payout for a cleared room keeps the profile well-formed,
   * adds exactly a quarter of the gold reward, never lowers HP and records
   * no result.
   */
  lemma PaidForRoomWellformed(s: Snapshot)
    requires RoomCleared(s)
    ensures var r := PaidForRoom(s.profile, s.run.value);
      && ProfileWellformed(r)
      && r.gold == s.profile.gold + QuarterOf(s.run.value.rewardGold)
      && r.hpCurrent >= s.profile.hpCurrent
      && r.stats == s.profile.stats
  {
    GainExpWellformed(s.profile.(gold := s.profile.gold + QuarterOf(s.run.value.rewardGold)),
                      QuarterOf(s.run.value.rewardExp));
  }

  /**
   * Clearing the last room ends the run as a victory: on top of the
   * quarter payout, the full gold reward is paid once more, a win is
   * recorded and the best tier updated.
   */
  lemma LastRoomOutcome(s: Snapshot)
    requires RoomCleared(s) && s.run.value.room >= RoomsTotal(s.run.value.tier)
    ensures var r, p, run := NextRoomOrEnd(s), s.profile, s.run.value;
      && Wellformed(r)
      && r.run.None?
      && r.profile.hpCurrent >= p.hpCurrent
      && r.profile.gold == p.gold + QuarterOf(run.rewardGold) + run.rewardGold
      && r.profile.stats == Stats(p.stats.wins + 1, p.stats.losses, Max(p.stats.bestTier, run.tier))
  {
    var paid := PaidForRoom(s.profile, s.run.value);
    PaidForRoomWellformed(s);
    assert NextRoomOrEnd(s) == EndRun(Snapshot(paid, s.run), true);
    EndRunOutcome(Snapshot(paid, s.run), true);
  }

  /**
   * The victory in the last room pays twice: the quarter payout first,
   * then the whole gold and experience rewards again through `endRun`.
   */
  lemma LastRoomPaysTwice(s: Snapshot)
    requires RoomCleared(s) && s.run.value.room >= RoomsTotal(s.run.value.tier)
    ensures var r, run := NextRoomOrEnd(s), s.run.value;
      var paid := PaidForRoom(s.profile, run);
      r.profile == GainExp(paid.(gold := paid.gold + run.rewardGold), run.rewardExp).(stats := r.profile.stats)
  {
    var paid := PaidForRoom(s.profile, s.run.value);
    PaidForRoomWellformed(s);
    assert NextRoomOrEnd(s) == EndRun(Snapshot(paid, s.run), true);
    EndRunOutcome(Snapshot(paid, s.run), true);
  }

  /**
   * The experience of the last room is accounted exactly: a quarter of the
   * reward and then the whole reward are earned.
   */
  lemma LastRoomExpAccount(s: Snapshot)
    requires RoomCleared(s) && s.run.value.room >= RoomsTotal(s.run.value.tier)
    ensures Accounted(s.profile, NextRoomOrEnd(s).profile,
                      QuarterOf(s.run.value.rewardExp) + s.run.value.rewardExp)
  {
    var p, run := s.profile, s.run.value;
    var paid := PaidForRoom(p, run);
    GainExpAccount(p.(gold := p.gold + QuarterOf(run.rewardGold)), QuarterOf(run.rewardExp));
    LastRoomPaysTwice(s);
    var paid' := paid.(gold := paid.gold + run.rewardGold);
    GainExpAccount(paid', run.rewardExp);
    AccountsCompose(p, paid', GainExp(paid', run.rewardExp), QuarterOf(run.rewardExp), run.rewardExp);
  }

  /**
   * An earlier room earns a quarter of the experience reward, and the next
   * room, with the same run rewards, starts cleared.
   */
  lemma InnerRoomExpAccount(s: Snapshot)
    requires RoomCleared(s) && s.run.value.room < RoomsTotal(s.run.value.tier)
    ensures var next, run := NextRoomOrEnd(s), s.run.value;
      && Accounted(s.profile, next.profile, QuarterOf(run.rewardExp))
      && RoomCleared(next)
      && next.run.value == run.(room := run.room + 1, enemyHp := next.run.value.enemyHp)
  {
    var p, run := s.profile, s.run.value;
    GainExpAccount(p.(gold := p.gold + QuarterOf(run.rewardGold)), QuarterOf(run.rewardExp));
    InnerRoomOutcome(s);
  }

  /** Clearing an earlier room moves on, heals 5 HP up to the maximum, and the next enemy starts defeated. */
  lemma InnerRoomOutcome(s: Snapshot)
    requires RoomCleared(s) && s.run.value.room < RoomsTotal(s.run.value.tier)
    ensures var r, p, run := NextRoomOrEnd(s), s.profile, s.run.value;
      var paid := PaidForRoom(p, run);
      && Wellformed(r)
      && r.profile.hpCurrent >= p.hpCurrent
      && r.profile == paid.(hpCurrent := Min(paid.hpMax, paid.hpCurrent + 5))
      && r.profile.gold == p.gold + QuarterOf(run.rewardGold)
      && r.profile.stats == p.stats
      && r.run.Some?
      && r.run.value == run.(room := run.room + 1, enemyHp := r.run.value.enemyHp)
      && r.run.value.enemyHp == ScaleEnemyHp(run.enemyHp, run.room + 1)
      && r.run.value.enemyHp <= 0
  {
    PaidForRoomWellformed(s);
    ScaledEnemyStaysDown(s.run.value.enemyHp, s.run.value.room + 1);
  }

  /**
   * Clearing a room pays a quarter of each reward; in the last room the
   * run ends as a victory that also pays the full reward; otherwise the
   * hero moves on and the enemy of the next room, scaled from the defeated
   * one, starts defeated as well.  The hero's HP never drops.
   */
  lemma NextRoomOutcome(s: Snapshot)
    requires RoomCleared(s)
    ensures var r := NextRoomOrEnd(s);
      && Wellformed(r)
      && r.profile.hpCurrent >= s.profile.hpCurrent
      && r.profile.stats.wins + r.profile.stats.losses
         == s.profile.stats.wins + s.profile.stats.losses + (if r.run.None? then 1 else 0)
      && r.profile.stats.wins >= s.profile.stats.wins
      && r.profile.stats.losses == s.profile.stats.losses
      && r.profile.stats.bestTier >= s.profile.stats.bestTier
  {
    if s.run.value.room >= RoomsTotal(s.run.value.tier) {
      LastRoomOutcome(s);
    } else {
      InnerRoomOutcome(s);
    }
  }

  /**
   * The hero's blow deals `attack + roll` damage, or the rounded 1.8 times
   * that with the skill, which costs 2 HP but never the last one.  A
   * defeated enemy clears the room; otherwise the enemy answers.  After
   * the first room the enemy starts defeated, so every blow clears a room.
   */
  lemma BlowOutcome(s: Snapshot, isSkill: bool, roll: int, spread: int)
    requires Wellformed(s) && s.run.Some? && 0 <= roll <= 3
    ensures var p, run := s.profile, s.run.value;
      var b := AfterBlow(p, run, isSkill, roll);
      var damage := HeroDamage(p.attack, isSkill, roll);
      && (isSkill ==> 10 * damage - 5 <= 18 * (p.attack + roll) < 10 * damage + 5)
      && (!isSkill ==> damage == p.attack + roll)
      && damage >= p.attack
      && b.profile == p.(hpCurrent := if isSkill then Max(1, p.hpCurrent - 2) else p.hpCurrent)
      && b.run == Some(run.(enemyHp := run.enemyHp - damage))
      && (run.room > 1 ==> b.run.value.enemyHp <= 0)
      && (b.run.value.enemyHp <= 0 ==> RoomCleared(b) && PlayerAttack(s, isSkill, roll, spread) == NextRoomOrEnd(b))
      && (b.run.value.enemyHp > 0 ==> Wellformed(b) && PlayerAttack(s, isSkill, roll, spread) == EnemyAttack(b, spread))
  {
  }

  /**
   * One attack keeps the game well-formed.  Only an enemy that survives
   * the blow retaliates: when the blow defeats it the hero loses no HP
   * beyond the skill's cost.  The run ends with exactly one win or loss
   * recorded, and otherwise no result is recorded.
   */
  lemma PlayerAttackOutcome(s: Snapshot, isSkill: bool, roll: int, spread: int)
    requires Wellformed(s) && 0 <= roll <= 3 && 0 <= spread <= 4
    ensures var r, p := PlayerAttack(s, isSkill, roll, spread), s.profile;
      && Wellformed(r)
      && (s.run.None? ==> r == s)
      && (s.run.Some? && AfterBlow(p, s.run.value, isSkill, roll).run.value.enemyHp <= 0 ==>
            r.profile.hpCurrent >= AfterBlow(p, s.run.value, isSkill, roll).profile.hpCurrent)
      && r.profile.stats.wins >= p.stats.wins
      && r.profile.stats.losses >= p.stats.losses
      && r.profile.stats.bestTier >= p.stats.bestTier
      && r.profile.stats.wins + r.profile.stats.losses
         == p.stats.wins + p.stats.losses + (if s.run.Some? && r.run.None? then 1 else 0)
  {
    if s.run.Some? {
      BlowOutcome(s, isSkill, roll, spread);
      var b := AfterBlow(s.profile, s.run.value, isSkill, roll);
      if b.run.value.enemyHp <= 0 {
        NextRoomOutcome(b);
      } else {
        EnemyAttackOutcome(b, spread);
      }
    }
  }

  /** The state after `n` further rooms are cleared. */
  ghost function ClearRooms(s: Snapshot, n: nat): (r: Snapshot)
    requires s.profile.expToNext >= 1
    ensures r.profile.expToNext >= 1
    decreases n
  {
    if n == 0 then s else ClearRooms(NextRoomOrEnd(s), n - 1)
  }

  /**
   * Clearing every remaining room of a run, from the current one to the
   * last, pays a quarter of the gold reward per room and then the whole
   * gold reward once more, and records one win.
   */
  lemma {:induction false} ClearingEveryRoomPays(s: Snapshot)
    requires RoomCleared(s)
    ensures var run, p := s.run.value, s.profile;
      var n := RoomsTotal(run.tier) - run.room + 1;
      var r := ClearRooms(s, n);
      && r.run.None?
      && ProfileWellformed(r.profile)
      && r.profile.gold == p.gold + n * QuarterOf(run.rewardGold) + run.rewardGold
      && r.profile.stats.wins == p.stats.wins + 1
      && r.profile.stats.bestTier >= run.tier
    decreases RoomsTotal(s.run.value.tier) - s.run.value.room
  {
    var run := s.run.value;
    var n := RoomsTotal(run.tier) - run.room + 1;
    var q := QuarterOf(run.rewardGold);
    var next := NextRoomOrEnd(s);
    assert ClearRooms(s, n) == ClearRooms(next, n - 1);
    if run.room >= RoomsTotal(run.tier) {
      LastRoomOutcome(s);
      assert n == 1;
    } else {
      InnerRoomOutcome(s);
      assert RoomCleared(next) && next.run.value.rewardGold == run.rewardGold;
      assert next.profile.gold == s.profile.gold + q;
      ClearingEveryRoomPays(next);
      assert (n - 1) * q + q == n * q;
    }
  }

  /**
   * Over the same rooms the experience is accounted exactly: what was held
   * plus a quarter of the reward per room plus the whole reward once more
   * equals what is held at the end plus the thresholds of the levels gained.
   */
  lemma {:induction false} ClearingEveryRoomLevels(s: Snapshot)
    requires RoomCleared(s)
    ensures var run := s.run.value;
      var n := RoomsTotal(run.tier) - run.room + 1;
      Accounted(s.profile, ClearRooms(s, n).profile, n * QuarterOf(run.rewardExp) + run.rewardExp)
    decreases RoomsTotal(s.run.value.tier) - s.run.value.room, 1
  {
    if s.run.value.room >= RoomsTotal(s.run.value.tier) {
      LastRoomLevels(s);
    } else {
      InnerRoomLevels(s);
    }
  }

  /** The base case: the last room alone. */
  lemma LastRoomLevels(s: Snapshot)
    requires RoomCleared(s) && s.run.value.room >= RoomsTotal(s.run.value.tier)
    ensures var run := s.run.value;
      var n := RoomsTotal(run.tier) - run.room + 1;
      Accounted(s.profile, ClearRooms(s, n).profile, n * QuarterOf(run.rewardExp) + run.rewardExp)
  {
    var run := s.run.value;
    var n := RoomsTotal(run.tier) - run.room + 1;
    assert n == 1;
    assert ClearRooms(s, n) == NextRoomOrEnd(s);
    LastRoomExpAccount(s);
  }

  /** The step: this room's account followed by the account of the rooms after it. */
  lemma {:induction false} InnerRoomLevels(s: Snapshot)
    requires RoomCleared(s) && s.run.value.room < RoomsTotal(s.run.value.tier)
    ensures var run := s.run.value;
      var n := RoomsTotal(run.tier) - run.room + 1;
      Accounted(s.profile, ClearRooms(s, n).profile, n * QuarterOf(run.rewardExp) + run.rewardExp)
    decreases RoomsTotal(s.run.value.tier) - s.run.value.room, 0
  {
    var run, next := s.run.value, NextRoomOrEnd(s);
    var n := RoomsTotal(run.tier) - run.room + 1;
    var e := QuarterOf(run.rewardExp);
    InnerRoomExpAccount(s);
    ClearingEveryRoomLevels(next);
    assert ClearRooms(s, n) == ClearRooms(next, n - 1);
    var rest := (n - 1) * e + run.rewardExp;
    assert e + rest == n * e + run.rewardExp;
    AccountsCompose(s.profile, next.profile, ClearRooms(next, n - 1).profile, e, rest);
  }

  /**
   * A fresh hero who clears all four rooms of a tier-1 run earns 160 gold
   * and 96 experience: twice the 80-gold, 48-experience reward, and not yet
   * enough for level 2.
   */
  lemma FreshHeroClearsFirstRun(s: Snapshot)
    requires s == Snapshot(DefaultProfile.(energy := 4), Some(Run(1, 0, 1, 80, 48, true)))
    ensures ClearRooms(s, 4).profile.gold == DefaultProfile.gold + 160
    ensures ClearRooms(s, 4).profile.exp == 96 && ClearRooms(s, 4).profile.level == 1
  {
    ClearingEveryRoomPays(s);
    ClearingEveryRoomLevels(s);
  }

  // ---------------------------------------------------------------------
  // Artifacts

  /** The artifact effects as a table: one tagged effect per pool entry. */
  datatype Effect = ShrinkThresholdEffect | AttackBonus(amount: int) | HpMaxBonus(amount: int) | GoldBonus(amount: int)

  const EffectTable: seq<Effect> :=
    [ShrinkThresholdEffect, AttackBonus(3), AttackBonus(4), GoldBonus(200), HpMaxBonus(5)]

  function ApplyEffect(p: Profile, e: Effect): Profile {
    match e
    case ShrinkThresholdEffect => p.(expToNext := Max(20, ShrinkThreshold(p.expToNext)))
    case AttackBonus(n) => p.(attack := p.attack + n)
    case HpMaxBonus(n) => p.(hpMax := p.hpMax + n)
    case GoldBonus(n) => p.(gold := p.gold + n)
  }

  /**
   * Granting pool entry `i` appends exactly that artifact and applies
   * exactly its one effect from the table; the threshold never drops
   * below 20 through it.
   */
  lemma ArtifactEffect(p: Profile, i: int)
    requires 0 <= i < |Pool|
    ensures var r := AddArtifact(p, i);
      && r == ApplyEffect(p.(artifacts := p.artifacts + [Pool[i]]), EffectTable[i])
      && r.artifacts == p.artifacts + [Pool[i]]
      && (i == 0 ==> r.expToNext >= 20)
  {
    PoolDispatch(i, 0);
    PoolDispatch(i, 1);
    PoolDispatch(i, 2);
    PoolDispatch(i, 3);
    PoolDispatch(i, 4);
  }

  /**
   * No leveling follows an artifact: the threshold artifact can leave the
   * experience at or above the new threshold until the next grant.
   */
  lemma ArtifactMayLeaveExpAboveThreshold()
    ensures exists p :: ProfileWellformed(p) && p.exp < p.expToNext
                        && AddArtifact(p, 0).exp >= AddArtifact(p, 0).expToNext
  {
    var p := DefaultProfile.(exp := 99);
    ArtifactEffect(p, 0);
    assert AddArtifact(p, 0).expToNext == 95;
  }

  // ---------------------------------------------------------------------
  // Offline reward

  /**
   * A profile that never claimed always gets the reward; a claim made
   * less than three minutes after a claim at a non-zero time changes nothing.
   */
  lemma OfflineClaimCooldown(p: Profile, first: int, second: int)
    ensures p.lastOfflineClaim == 0 || first - p.lastOfflineClaim >= MinOfflineInterval ==>
      ClaimOfflineReward(p, first) == p.(lastOfflineClaim := first, gold := p.gold + 150,
                                         energy := Min(p.energyMax, p.energy + 1))
    ensures (p.lastOfflineClaim == 0 || first - p.lastOfflineClaim >= MinOfflineInterval) &&
            first != 0 && second - first < MinOfflineInterval ==>
      var claimed := ClaimOfflineReward(p, first);
      claimed.gold == p.gold + 150 && ClaimOfflineReward(claimed, second) == claimed
  {
  }

  // ---------------------------------------------------------------------
  // Upgrades and shop

  /**
   * A successful upgrade takes exactly `cost` gold and applies only the
   * named effect; an unknown kind applies none.
   */
  lemma BuyUpgradeOutcome(p: Profile, kind: string, cost: int)
    requires p.gold >= cost
    ensures var r := BuyUpgrade(p, kind, cost);
      && r.gold == p.gold - cost
      && (kind == "hp" ==> r.hpCurrent == r.hpMax == p.hpMax + 10 && r == p.(gold := r.gold, hpMax := r.hpMax, hpCurrent := r.hpCurrent))
      && (kind == "atk" ==> r == p.(gold := r.gold, attack := p.attack + 2))
      && (kind == "energy" ==> r.energy == r.energyMax == p.energyMax + 1 && r == p.(gold := r.gold, energy := r.energy, energyMax := r.energyMax))
      && (kind != "hp" && kind != "atk" && kind != "energy" ==> r == p.(gold := r.gold))
  {
  }

  /** The actions whose check fails: missing energy, gold or crystals, an early claim, or no run. */
  predicate Refused(s: Snapshot, a: Action) {
    var p := s.profile;
    match a
    case StartRunAction(_) => p.energy <= 0
    case AttackAction(_, _, _) => s.run.None?
    case FleeAction => s.run.None?
    case ClaimOfflineAction(now) => p.lastOfflineClaim != 0 && now - p.lastOfflineClaim < MinOfflineInterval
    case UpgradeAction(_, cost) => p.gold < cost
    case CrystalsForGoldAction(cost, _) => p.crystals < cost
    case CrystalsForEnergyAction(cost, _) => p.crystals < cost
    case _ => false
  }

  /** Every refused action leaves the whole state untouched. */
  lemma RefusedActionChangesNothing(s: Snapshot, a: Action)
    requires s.profile.expToNext >= 1 && Admissible(a) && Refused(s, a)
    ensures Step(s, a) == s
  {
  }

  // ---------------------------------------------------------------------
  // The invariant of the game

  /** Granting an artifact keeps the profile well-formed: the new artifact comes from the pool. */
  lemma ArtifactPreserves(p: Profile, index: int)
    requires ProfileWellformed(p) && 0 <= index < |Pool|
    ensures ProfileWellformed(AddArtifact(p, index)) && AddArtifact(p, index).stats == p.stats
  {
    ArtifactEffect(p, index);
    var r := AddArtifact(p, index);
    forall k | 0 <= k < |r.artifacts|
      ensures r.artifacts[k] in Pool
    {
      if k == |p.artifacts| {
        assert r.artifacts[k] == Pool[index];
      } else {
        assert r.artifacts[k] == p.artifacts[k];
      }
    }
  }

  /** The offline reward, the upgrades and the shop keep the profile well-formed and record no result. */
  lemma ShopPreserves(s: Snapshot, a: Action)
    requires Wellformed(s) && Admissible(a)
    requires a.ClaimOfflineAction? || a.UpgradeAction? || a.BuyCrystalsAction? || a.CrystalsForGoldAction? || a.CrystalsForEnergyAction?
    ensures Wellformed(Step(s, a)) && Step(s, a).profile.stats == s.profile.stats && Step(s, a).run == s.run
  {
  }

  /**
   * Every action keeps the game well-formed (levels, experience, HP within
   * 1..hpMax, energy within 0..energyMax, non-negative balances, artifacts
   * from the pool, a sane run), never lowers the best tier, the wins or the
   * losses, and adds exactly one win or loss when it ends the run.
   */
  lemma StepPreserves(s: Snapshot, a: Action)
    requires Wellformed(s) && Admissible(a)
    ensures var r := Step(s, a);
      && Wellformed(r)
      && r.profile.stats.bestTier >= s.profile.stats.bestTier
      && r.profile.stats.wins >= s.profile.stats.wins
      && r.profile.stats.losses >= s.profile.stats.losses
      && r.profile.stats.wins + r.profile.stats.losses
         == s.profile.stats.wins + s.profile.stats.losses + (if s.run.Some? && r.run.None? then 1 else 0)
  {
    match a
    case StartRunAction(tier) =>
    case AttackAction(isSkill, roll, spread) =>
      PlayerAttackOutcome(s, isSkill, roll, spread);
    case FleeAction =>
      if s.run.Some? {
        EndRunOutcome(s, false);
      }
    case ArtifactAction(index) =>
      ArtifactPreserves(s.profile, index);
    case ClaimOfflineAction(_) =>
      ShopPreserves(s, a);
    case UpgradeAction(_, _) =>
      ShopPreserves(s, a);
    case BuyCrystalsAction(_) =>
      ShopPreserves(s, a);
    case CrystalsForGoldAction(_, _) =>
      ShopPreserves(s, a);
    case CrystalsForEnergyAction(_, _) =>
      ShopPreserves(s, a);
  }

  /**
   * Over any sequence of actions the game stays well-formed, and the best
   * tier, the wins and the losses never decrease.
   */
  lemma {:induction false} PlayPreserves(s: Snapshot, acts: seq<Action>)
    requires Wellformed(s)
    requires forall k :: 0 <= k < |acts| ==> Admissible(acts[k])
    ensures var r := Play(s, acts);
      && Wellformed(r)
      && r.profile.stats.bestTier >= s.profile.stats.bestTier
      && r.profile.stats.wins >= s.profile.stats.wins
      && r.profile.stats.losses >= s.profile.stats.losses
    decreases |acts|
  {
    if acts != [] {
      assert Admissible(acts[0]);
      StepPreserves(s, acts[0]);
      PlayPreserves(Step(s, acts[0]), acts[1..]);
    }
  }
}
