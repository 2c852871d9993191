/**
 * The demo artifact pool of main.js and the text matching by which
 * `addRandomArtifact` chooses an effect.
 */
module Artifacts {

  datatype Rarity = Common | Rare | Epic | Legendary

  datatype Artifact = Artifact(name: string, rarity: Rarity, desc: string)

  // The descriptions of the five pool entries.  The first and the third are
  // written as three literals only to keep the verifier's reasoning about
  // each literal short.
  const RingDesc: string := "+10% к опыту " + "(в демо просто " + "снижает порог уровня)."
  const AmuletDesc: string := "+3 к атаке."
  const WatchDesc: string := "Даёт " + "+4 к атаке" + " (в демо)."
  const TalismanDesc: string := "+200 🪙 при получении."
  const HourglassDesc: string := "+5 к HP."

  /** The five predefined artifacts, in the order of `demoArtifactsPool`. */
  const Pool: seq<Artifact> := [
    Artifact("Кольцо временных петель", Epic, RingDesc),
    Artifact("Амулет хладного расчёта", Rare, AmuletDesc),
    Artifact("Часы берсерка", Legendary, WatchDesc),
    Artifact("Талисман удачи фармера", Rare, TalismanDesc),
    Artifact("Треснувший песочные часы", Common, HourglassDesc)
  ]

  /** The substrings the five effect branches look for, in the order they appear. */
  const ExpKey: string := "опыту"
  const Attack3Key: string := "+3 к атаке"
  const Hp5Key: string := "+5 к HP"
  const Attack4Key: string := "+4 к атаке"
  const Gold200Key: string := "+200 🪙"

  const EffectKeys: seq<string> := [ExpKey, Attack3Key, Hp5Key, Attack4Key, Gold200Key]

  /** The effect branch that each pool entry's description selects. */
  const BranchOf: seq<int> := [0, 1, 3, 4, 2]

  /** JavaScript's `String.prototype.includes`: `t` occurs in `s` at some position. */
  predicate Includes(s: string, t: string) {
    exists k | 0 <= k <= |s| - |t| :: OccursAt(s, t, k)
  }

  predicate OccursAt(s: string, t: string, k: int) {
    0 <= k <= |s| - |t| && s[k..k + |t|] == t
  }

  /** A key with a character that the text lacks does not occur in it. */
  lemma MissingCharExcludes(s: string, t: string, j: int)
    requires 0 <= j < |t| && t[j] !in s
    ensures !Includes(s, t)
  {
    forall k | 0 <= k <= |s| - |t|
      ensures !OccursAt(s, t, k)
    {
      assert s[k..k + |t|][j] == s[k + j];
      assert s[k + j] in s;
    }
  }

  /**
   * Each description of the pool contains exactly one of the five keys:
   * entry `i` triggers branch `BranchOf[i]` and no other.
   */
  lemma PoolDispatch(i: int, j: int)
    requires 0 <= i < |Pool| && 0 <= j < |EffectKeys|
    ensures Includes(Pool[i].desc, EffectKeys[j]) <==> j == BranchOf[i]
  {
    if j == 0 {
      OnlyRingHasExpKey();
    } else if j == 1 {
      OnlyAmuletHasAttack3Key();
    } else if j == 2 {
      OnlyHourglassHasHp5Key();
    } else if j == 3 {
      OnlyWatchHasAttack4Key();
    } else {
      OnlyTalismanHasGold200Key();
    }
  }

  // In each lemma below the key is found at a given position of its own
  // description, and every other description lacks one of the key's
  // characters: the digit of the bonus, or a Cyrillic letter of "опыту".

  lemma OnlyRingHasExpKey()
    ensures Includes(RingDesc, ExpKey)
    ensures !Includes(AmuletDesc, ExpKey)
    ensures !Includes(WatchDesc, ExpKey)
    ensures !Includes(TalismanDesc, ExpKey)
    ensures !Includes(HourglassDesc, ExpKey)
  {
    assert OccursAt(RingDesc, ExpKey, 7);
    MissingCharExcludes(AmuletDesc, ExpKey, 0);
    MissingCharExcludes(WatchDesc, ExpKey, 1);
    MissingCharExcludes(TalismanDesc, ExpKey, 2);
    MissingCharExcludes(HourglassDesc, ExpKey, 0);
  }

  lemma OnlyAmuletHasAttack3Key()
    ensures !Includes(RingDesc, Attack3Key)
    ensures Includes(AmuletDesc, Attack3Key)
    ensures !Includes(WatchDesc, Attack3Key)
    ensures !Includes(TalismanDesc, Attack3Key)
    ensures !Includes(HourglassDesc, Attack3Key)
  {
    MissingCharExcludes(RingDesc, Attack3Key, 1);
    assert OccursAt(AmuletDesc, Attack3Key, 0);
    MissingCharExcludes(WatchDesc, Attack3Key, 1);
    MissingCharExcludes(TalismanDesc, Attack3Key, 1);
    MissingCharExcludes(HourglassDesc, Attack3Key, 1);
  }

  lemma OnlyHourglassHasHp5Key()
    ensures !Includes(RingDesc, Hp5Key)
    ensures !Includes(AmuletDesc, Hp5Key)
    ensures !Includes(WatchDesc, Hp5Key)
    ensures !Includes(TalismanDesc, Hp5Key)
    ensures Includes(HourglassDesc, Hp5Key)
  {
    MissingCharExcludes(RingDesc, Hp5Key, 1);
    MissingCharExcludes(AmuletDesc, Hp5Key, 1);
    MissingCharExcludes(WatchDesc, Hp5Key, 1);
    MissingCharExcludes(TalismanDesc, Hp5Key, 1);
    assert OccursAt(HourglassDesc, Hp5Key, 0);
  }

  lemma OnlyWatchHasAttack4Key()
    ensures !Includes(RingDesc, Attack4Key)
    ensures !Includes(AmuletDesc, Attack4Key)
    ensures Includes(WatchDesc, Attack4Key)
    ensures !Includes(TalismanDesc, Attack4Key)
    ensures !Includes(HourglassDesc, Attack4Key)
  {
    MissingCharExcludes(RingDesc, Attack4Key, 1);
    MissingCharExcludes(AmuletDesc, Attack4Key, 1);
    assert OccursAt(WatchDesc, Attack4Key, 5);
    MissingCharExcludes(TalismanDesc, Attack4Key, 1);
    MissingCharExcludes(HourglassDesc, Attack4Key, 1);
  }

  lemma OnlyTalismanHasGold200Key()
    ensures !Includes(RingDesc, Gold200Key)
    ensures !Includes(AmuletDesc, Gold200Key)
    ensures !Includes(WatchDesc, Gold200Key)
    ensures Includes(TalismanDesc, Gold200Key)
    ensures !Includes(HourglassDesc, Gold200Key)
  {
    MissingCharExcludes(RingDesc, Gold200Key, 1);
    MissingCharExcludes(AmuletDesc, Gold200Key, 1);
    MissingCharExcludes(WatchDesc, Gold200Key, 1);
    assert OccursAt(TalismanDesc, Gold200Key, 0);
    MissingCharExcludes(HourglassDesc, Gold200Key, 1);
  }
}
