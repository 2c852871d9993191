/**
 * The running game of main.js: the mutable `state` record and the
 * `currentRun` global as the fields of one object, and one method per
 * operation, updating the fields step by step as the source does.  Each
 * method is proved to leave the state the engine function of the same
 * name computes, so every fact proved about the engine holds of the game.
 */
module Session {
  import opened Wrappers
  import opened Formulas
  import opened Artifacts
  import Engine
  import Invariants

  class Game {
    var level: int
    var exp: int
    var expToNext: int
    var hpMax: int
    var hpCurrent: int
    var attack: int
    var gold: int
    var crystals: int
    var energy: int
    var energyMax: int
    var stats: Engine.Stats
    var artifacts: seq<Artifact>
    var lastOfflineClaim: int
    /** `null` is `None`; the record is replaced rather than edited in place. */
    var currentRun: Option<Engine.Run>

    /** The leveling loop needs a positive threshold to terminate. */
    ghost predicate Valid()
      reads this
    {
      expToNext >= 1
    }

    function Profile(): Engine.Profile
      reads this
    {
      Engine.Profile(level, exp, expToNext, hpMax, hpCurrent, attack, gold, crystals,
                     energy, energyMax, stats, artifacts, lastOfflineClaim)
    }

    function Snapshot(): Engine.Snapshot
      reads this
    {
      Engine.Snapshot(Profile(), currentRun)
    }

    /** A new game: the default profile and no run. */
    constructor ()
      ensures Valid()
      ensures Snapshot() == Engine.Snapshot(Engine.DefaultProfile, None)
      ensures Engine.Wellformed(Snapshot())
    {
      level := 1;
      exp := 0;
      expToNext := 100;
      hpMax := 50;
      hpCurrent := 50;
      attack := 8;
      gold := 300;
      crystals := 0;
      energy := 5;
      energyMax := 5;
      stats := Engine.Stats(0, 0, 0);
      artifacts := [];
      lastOfflineClaim := 0;
      currentRun := None;
    }

    /** `gainExp(amount)`: levels up until the experience is below the threshold. */
    method GainExp(amount: int)
      requires Valid()
      modifies this`exp, this`level, this`hpMax, this`attack, this`hpCurrent, this`expToNext
      ensures Valid()
      ensures exp < expToNext
      ensures Profile() == Engine.GainExp(old(Profile()), amount)
    {
      ghost var target := Engine.GainExp(Profile(), amount);
      exp := exp + amount;
      while exp >= expToNext
        invariant expToNext >= 1
        invariant Engine.Settle(Profile()) == target
        decreases exp
      {
        ghost var before := Profile();
        exp := exp - expToNext;
        level := level + 1;
        hpMax := hpMax + 6;
        attack := attack + 2;
        hpCurrent := hpMax;
        expToNext := GrowThreshold(expToNext);
        assert Profile() == Engine.LevelUp(before);
        assert Engine.Settle(before) == Engine.Settle(Profile());
      }
      assert Engine.Settle(Profile()) == Profile();
    }

    /** `startRun(tier)`. */
    method StartRun(tier: int)
      requires Valid()
      modifies this
      ensures Valid()
      ensures Snapshot() == Engine.StartRun(old(Snapshot()), tier)
    {
      if energy <= 0 {
        return;
      }
      currentRun := Some(Engine.Run(tier, 30 + tier * 25 + level * 3, 1,
                                    70 * tier + level * 10, 40 * tier + level * 8, true));
      energy := energy - 1;
      hpCurrent := hpMax;
    }

    /** `endRun(success)`. */
    method EndRun(success: bool)
      requires Valid()
      modifies this
      ensures Valid()
      ensures Snapshot() == Engine.EndRun(old(Snapshot()), success)
    {
      if currentRun.None? {
        return;
      }
      var run := currentRun.value;
      ghost var s := Snapshot();
      if success {
        var remainingGold := Max(0, run.rewardGold - 0);
        var remainingExp := Max(0, run.rewardExp - 0);
        gold := gold + remainingGold;
        ghost var p0 := s.profile.(gold := s.profile.gold + Max(0, run.rewardGold));
        assert Profile() == p0;
        GainExp(remainingExp);
        assert Profile() == Engine.GainExp(p0, Max(0, run.rewardExp));
        stats := stats.(wins := stats.wins + 1);
        stats := stats.(bestTier := Max(stats.bestTier, run.tier));
      } else {
        stats := stats.(losses := stats.losses + 1);
      }
      currentRun := None;
      hpCurrent := Max(1, hpCurrent);
    }

    /** `enemyAttack()`, with `spread` the rounded random part of the damage. */
    method EnemyAttack(spread: int)
      requires Valid() && 0 <= spread <= 4
      modifies this
      ensures Valid()
      ensures Snapshot() == Engine.EnemyAttack(old(Snapshot()), spread)
    {
      if currentRun.None? || !currentRun.value.alive {
        return;
      }
      var tier := currentRun.value.tier;
      var baseDamage := 4 + tier * 3;
      var dmg := baseDamage + spread;
      hpCurrent := hpCurrent - dmg;
      if hpCurrent <= 0 {
        hpCurrent := 0;
        currentRun := Some(currentRun.value.(alive := false));
        EndRun(false);
      }
    }

    /** `nextRoomOrEnd()`. */
    method NextRoomOrEnd()
      requires Valid()
      modifies this
      ensures Valid()
      ensures Snapshot() == Engine.NextRoomOrEnd(old(Snapshot()))
    {
      if currentRun.None? {
        return;
      }
      var run := currentRun.value;
      ghost var s := Snapshot();
      var partialGold := QuarterOf(run.rewardGold);
      var partialExp := QuarterOf(run.rewardExp);
      gold := gold + partialGold;
      ghost var p0 := s.profile.(gold := s.profile.gold + partialGold);
      assert Profile() == p0;
      GainExp(partialExp);
      ghost var p := Engine.PaidForRoom(s.profile, run);
      assert Snapshot() == Engine.Snapshot(p, s.run);
      if run.room >= Engine.RoomsTotal(run.tier) {
        assert Engine.NextRoomOrEnd(s) == Engine.EndRun(Engine.Snapshot(p, s.run), true);
        EndRun(true);
        return;
      }
      var room := run.room + 1;
      currentRun := Some(run.(room := room, enemyHp := ScaleEnemyHp(run.enemyHp, room)));
      hpCurrent := Min(hpMax, hpCurrent + 5);
      assert Snapshot() == Engine.Snapshot(p.(hpCurrent := Min(p.hpMax, p.hpCurrent + 5)), currentRun);
    }

    /** `playerAttack(isSkill)`, with `roll` the random bonus and `spread` the enemy's. */
    method PlayerAttack(isSkill: bool, roll: int, spread: int)
      requires Valid() && 0 <= roll <= 3 && 0 <= spread <= 4
      modifies this
      ensures Valid()
      ensures Snapshot() == Engine.PlayerAttack(old(Snapshot()), isSkill, roll, spread)
    {
      if currentRun.None? || !currentRun.value.alive {
        return;
      }
      ghost var s := Snapshot();
      var dmg := attack + roll;
      if isSkill {
        dmg := SkillDamage(dmg);
        hpCurrent := Max(1, hpCurrent - 2);
      }
      assert dmg == Engine.HeroDamage(s.profile.attack, isSkill, roll);
      currentRun := Some(currentRun.value.(enemyHp := currentRun.value.enemyHp - dmg));
      if hpCurrent <= 0 {
        hpCurrent := 0;
      }
      assert Snapshot().run == Some(s.run.value.(enemyHp := s.run.value.enemyHp - dmg));
      assert Snapshot().profile == s.profile.(hpCurrent := hpCurrent);
      if currentRun.value.enemyHp <= 0 {
        NextRoomOrEnd();
      } else {
        EnemyAttack(spread);
      }
    }

    /** The flee button. */
    method Flee()
      requires Valid()
      modifies this
      ensures Valid()
      ensures Snapshot() == Engine.Flee(old(Snapshot()))
    {
      if currentRun.None? {
        return;
      }
      EndRun(false);
    }

    /** `addRandomArtifact()` with `index` the drawn pool position. */
    method AddRandomArtifact(index: int)
      requires Valid() && 0 <= index < |Pool|
      modifies this`artifacts, this`expToNext, this`attack, this`hpMax, this`gold
      ensures Valid()
      ensures Snapshot() == Engine.Snapshot(Engine.AddArtifact(old(Profile()), index), old(currentRun))
    {
      // exactly one of the five tests below succeeds for each pool entry
      PoolDispatch(index, 0);
      PoolDispatch(index, 1);
      PoolDispatch(index, 2);
      PoolDispatch(index, 3);
      PoolDispatch(index, 4);
      var pick := Pool[index];
      artifacts := artifacts + [pick];
      if Includes(pick.desc, ExpKey) {
        expToNext := Max(20, ShrinkThreshold(expToNext));
      }
      if Includes(pick.desc, Attack3Key) {
        attack := attack + 3;
      }
      if Includes(pick.desc, Hp5Key) {
        hpMax := hpMax + 5;
      }
      if Includes(pick.desc, Attack4Key) {
        attack := attack + 4;
      }
      if Includes(pick.desc, Gold200Key) {
        gold := gold + 200;
      }
    }

    /** `claimOfflineReward()` at time `now`. */
    method ClaimOfflineReward(now: int)
      requires Valid()
      modifies this
      ensures Valid()
      ensures Snapshot() == Engine.Snapshot(Engine.ClaimOfflineReward(old(Profile()), now), old(currentRun))
    {
      var minInterval := 3 * 60 * 1000;
      if lastOfflineClaim != 0 && now - lastOfflineClaim < minInterval {
        return;
      }
      lastOfflineClaim := now;
      gold := gold + 150;
      energy := Min(energyMax, energy + 1);
    }

    /** `buyUpgrade(type, cost)`. */
    method BuyUpgrade(kind: string, cost: int)
      requires Valid()
      modifies this
      ensures Valid()
      ensures Snapshot() == Engine.Snapshot(Engine.BuyUpgrade(old(Profile()), kind, cost), old(currentRun))
    {
      if gold < cost {
        return;
      }
      gold := gold - cost;
      if kind == "hp" {
        hpMax := hpMax + 10;
        hpCurrent := hpMax;
      } else if kind == "atk" {
        attack := attack + 2;
      } else if kind == "energy" {
        energyMax := energyMax + 1;
        energy := energyMax;
      }
    }

    /** `buyCrystals(amount)`. */
    method BuyCrystals(amount: int)
      requires Valid()
      modifies this
      ensures Valid()
      ensures Snapshot() == Engine.Snapshot(Engine.BuyCrystals(old(Profile()), amount), old(currentRun))
    {
      crystals := crystals + amount;
    }

    /** `exchangeCrystalsForGold(cost, gain)`. */
    method ExchangeCrystalsForGold(cost: int, gain: int)
      requires Valid()
      modifies this
      ensures Valid()
      ensures Snapshot() == Engine.Snapshot(Engine.ExchangeCrystalsForGold(old(Profile()), cost, gain), old(currentRun))
    {
      if crystals < cost {
        return;
      }
      crystals := crystals - cost;
      gold := gold + gain;
    }

    /** `buyEnergyWithCrystals(cost, gain)`. */
    method BuyEnergyWithCrystals(cost: int, gain: int)
      requires Valid()
      modifies this
      ensures Valid()
      ensures Snapshot() == Engine.Snapshot(Engine.BuyEnergyWithCrystals(old(Profile()), cost, gain), old(currentRun))
    {
      if crystals < cost {
        return;
      }
      crystals := crystals - cost;
      energy := Min(energyMax, energy + gain);
    }

    /** One player action, dispatched as the click handlers do. */
    method Perform(a: Engine.Action)
      requires Valid() && Engine.Admissible(a)
      modifies this
      ensures Valid()
      ensures Snapshot() == Engine.Step(old(Snapshot()), a)
      ensures Engine.Wellformed(old(Snapshot())) ==> Engine.Wellformed(Snapshot())
      ensures Engine.Wellformed(old(Snapshot())) ==> stats.bestTier >= old(stats.bestTier)
    {
      if Engine.Wellformed(Snapshot()) {
        Invariants.StepPreserves(Snapshot(), a);
      }
      match a
      case StartRunAction(tier) => StartRun(tier);
      case AttackAction(isSkill, roll, spread) => PlayerAttack(isSkill, roll, spread);
      case FleeAction => Flee();
      case ArtifactAction(index) => AddRandomArtifact(index);
      case ClaimOfflineAction(now) => ClaimOfflineReward(now);
      case UpgradeAction(kind, cost) => BuyUpgrade(kind, cost);
      case BuyCrystalsAction(amount) => BuyCrystals(amount);
      case CrystalsForGoldAction(cost, gain) => ExchangeCrystalsForGold(cost, gain);
      case CrystalsForEnergyAction(cost, gain) => BuyEnergyWithCrystals(cost, gain);
    }
  }
}
