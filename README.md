# ChronoCraft game engine in Dafny

This project models the game-state engine of the ChronoCraft demo (`main.js`), a Telegram mini-app RPG. The model covers:

- the hero's persistent profile (`state`: level, experience, HP, attack, gold, crystals, energy, statistics, artifacts, the time of the last offline claim);
- the optional dungeon run (`currentRun`);
- the operations that change them: leveling, the run and battle state machine (start, attack with or without the skill, the enemy's answer, the next room, the end of a run, flight), the artifact grant, the offline reward, upgrades and the shop.

The project has six modules:

- `Formulas` (`formulas.dfy`): each of the source's `Math.round(integer × constant)` written as exact integer division. Its contract states the round-half-up law the division satisfies.
- `Artifacts` (`artifacts.dfy`):
  - the five-entry artifact pool;
  - the substring keys that `addRandomArtifact` tests;
  - a model of `String.prototype.includes`;
  - the proof that each pool description contains exactly one key.
- `Engine` (`engine.dfy`): the state as values (`Profile`, `Run`, `Snapshot`) and each operation as a function from the old state to the new. It also defines:
  - the player's actions, and their replay with `Step` and `Play`;
  - the invariant of a well-formed game.
- `Invariants` (`invariants.dfy`): what the engine guarantees. This covers:
  - the leveling law;
  - the outcome of each battle step;
  - the artifact effect table;
  - the refused exchanges;
  - the invariant kept by every action and every sequence of actions.
- `Session` (`session.dfy`): the running game as a class `Game`.
  - The class's fields are those of `state`, plus `currentRun`.
  - It has one method per operation. Each method updates the fields step by step, as the source does; `gainExp` keeps its `while` loop.
  - Each method is proved to leave the state that the matching `Engine` function computes, so every lemma in `Invariants` holds for the running game.
- `Wrappers` (`wrappers.dfy`): `Option`, which stands for `null`.

## Modelling decisions

- **Randomness and the clock** become parameters:
  - `roll` in 0..3 is `Math.floor(Math.random() * 4)`.
  - `spread` in 0..4 is the rounded random part of the enemy's damage. `Math.round(4 + 3·tier + 4·random)` equals `4 + 3·tier + spread` for such a `spread`.
  - `index` in 0..4 is the drawn pool position.
  - `now` is `Date.now()`.
- **Rounding.** Each of the five `Math.round(integer × constant)` of the core is exact integer division (the enemy's damage, which rounds a random sum, is the `spread` parameter above; the remaining `Math.round` calls only format displayed values), with Dafny's floor division (which also treats the negative HP being scaled correctly):
  - `round(1.25·t) = (5t+2)/4`
  - `round(1.8·d) = (18d+5)/10`
  - `round(0.25·x) = (x+2)/4`
  - `round(0.95·t) = (19t+10)/20`
  - `round(h·(1+0.2·room)) = (2h(5+room)+5)/10`
- **Source quirks are reproduced as they are:**
  - `startRun` replaces a run that is still in progress, recording neither a win nor a loss (`Invariants.StartRunOutcome`).
  - A victory pays the full gold and experience rewards a second time, on top of the quarter already paid per room (`Invariants.LastRoomPaysTwice`, `Invariants.ClearingEveryRoomPays`, `Invariants.ClearingEveryRoomLevels`).
  - After the first room, the enemy's HP is the scaled leftover of the defeated enemy, and that leftover is not positive. Every later blow therefore clears a room (`Invariants.BlowOutcome`, `Invariants.InnerRoomOutcome`).
- **Tier.** `getSelectedTier` (main.js:444-448) returns 1 when no button is active and otherwise parses the active button's `data-tier` attribute. The markup that sets that attribute is not part of this model, so tier ≥ 1 is assumed: the buttons' `data-tier` values live in the markup, which main.js does not contain. `Admissible` asks for `tier >= 1`, amounts and gains that are not negative, and random draws within their ranges. Costs are unconstrained.
- **Example.** A level-1 hero starting a tier-1 run meets a 58-HP enemy (`30 + 25 + 3`, main.js:134), for 80 gold and 48 experience (`Invariants.FreshHeroFirstRun`).
- **The state invariant (`Engine.Wellformed`)** requires:
  - a level of at least 1;
  - 0 ≤ experience, with a threshold of at least 1;
  - 1 ≤ HP ≤ maximum HP;
  - 0 ≤ energy ≤ maximum energy;
  - non-negative attack, gold, crystals and statistics;
  - artifacts drawn from the pool;
  - a run with a tier of at least 1, a room within `1..3+tier`, non-negative rewards, and a defeated enemy after the first room.

  Experience can pass its threshold transiently: after the threshold artifact, and during a grant's leveling loop (`Invariants.ArtifactMayLeaveExpAboveThreshold`). The invariant therefore does not demand `exp < expToNext`; `Engine.Settle` and `Session.Game.GainExp` ensure it after every grant.

## Model

| member | source | states |
|---|---|---|
| Formulas.GrowThreshold | main.js:122 | the new threshold `r` is `round(1.25·t)`: `4r-2 <= 5t < 4r+2`; it never shrinks a non-negative threshold |
| Formulas.SkillDamage | main.js:188 | the skill damage is `round(1.8·d)`: `10r-5 <= 18d < 10r+5`; it is at least `d` |
| Formulas.QuarterOf | main.js:217-218 | the per-room payout is `round(x/4)`: `4r-2 <= x < 4r+2`; it lies within `0..x` |
| Formulas.ShrinkThreshold | main.js:321 | the shrunk threshold is `round(0.95·t)`: `20r-10 <= 19t < 20r+10`; it never exceeds `t` |
| Formulas.ScaleEnemyHp | main.js:237-238 | the next enemy's HP is `round(h·(1+0.2·room))`, also for negative `h` |
| Artifacts.MissingCharExcludes | main.js:320-336 | a string lacking some character of the key does not include the key |
| Artifacts.PoolDispatch | main.js:288-314 | pool description `i` includes effect key `j` exactly when `j` is the branch of that entry; each description triggers exactly one branch |
| Artifacts.OnlyRingHasExpKey | main.js:288-314 | only the ring's description contains "опыту" |
| Artifacts.OnlyAmuletHasAttack3Key | main.js:288-314 | only the amulet's description contains "+3 к атаке" |
| Artifacts.OnlyHourglassHasHp5Key | main.js:288-314 | only the hourglass's description contains "+5 к HP" |
| Artifacts.OnlyWatchHasAttack4Key | main.js:288-314 | only the watch's description contains "+4 к атаке" |
| Artifacts.OnlyTalismanHasGold200Key | main.js:288-314 | only the talisman's description contains "+200 🪙" |
| Engine.Settle | main.js:116-123 | the leveling loop ends with the experience below the threshold, and the threshold never decreases |
| Engine.SettleLaw | main.js:116-123 | with `n` level-ups: `n` levels, `+6n` max HP, `+2n` attack, the `n` first thresholds consumed exactly, the `n`-th grown threshold held, full HP when `n > 0`, nothing else changed |
| Engine.GainExp | main.js:114-124 | a grant ends with the experience below the threshold and never lowers the threshold; a grant that stays below the threshold only adds to the experience |
| Engine.NewRun | main.js:134-146 | the new run is in room 1 of the chosen tier and alive; for a tier and level of at least 1 its enemy HP and both rewards are positive |
| Engine.StartRun | main.js:128-149 | without energy nothing changes; otherwise the fresh run replaces any other, exactly one energy is spent, HP is set to the maximum and nothing else changes |
| Engine.EndRun | main.js:256-284 | without a run nothing changes; otherwise the run is cleared with HP at least 1, and the threshold never decreases |
| Engine.EnemyAttack | main.js:160-182 | without a live run nothing changes; a hero who survives keeps the same run and has exactly `4+3·tier+spread` HP less, still positive |
| Engine.PaidForRoom | main.js:216-221 | after the quarter payout the experience is below the threshold and the threshold has not decreased (its gold and statistics are `Invariants.PaidForRoomWellformed`) |
| Engine.NextRoomOrEnd | main.js:213-254 | without a run nothing changes; a run that goes on is in the next room of the same tier, within the tier's room count |
| Engine.AfterBlow | main.js:185-203 | the blow changes only the hero's HP and the enemy's HP; the skill leaves at least 1 HP, a plain blow leaves positive HP untouched, and the enemy loses at least `attack+roll` |
| Engine.PlayerAttack | main.js:184-211 | without a live run nothing changes; a run that goes on keeps its tier; the threshold never decreases |
| Engine.Flee | main.js:460-464 | with a run, it ends as exactly one more loss; without one nothing changes |
| Engine.AddArtifact | main.js:316-337 | the threshold is unchanged or at least 20 (the full effect of each entry is `Invariants.ArtifactEffect`) |
| Engine.ClaimOfflineReward | main.js:344-357 | the claim changes nothing exactly when an earlier claim at a non-zero time lies less than 3 minutes back; an accepted claim sets the timestamp, adds 150 gold and 1 energy up to the maximum, and changes nothing else |
| Engine.BuyUpgrade | main.js:361-379 | without enough gold nothing changes; otherwise exactly the cost is taken; crystals, level, experience and artifacts never change |
| Engine.BuyCrystals | main.js:383-389 | the crystals grow by the amount and nothing else changes |
| Engine.ExchangeCrystalsForGold | main.js:391-401 | without enough crystals nothing changes; otherwise exactly the cost in crystals becomes the gain in gold, and nothing else changes |
| Engine.BuyEnergyWithCrystals | main.js:403-413 | without enough crystals nothing changes; otherwise exactly the cost is taken and, for a non-negative gain from energy within its maximum, energy rises by the gain or to the maximum, whichever is less; only crystals and energy change |
| Engine.Step | main.js:452-509 | every action keeps the threshold at least 1 |
| Engine.Play | main.js:452-509 | every sequence of actions keeps the threshold at least 1 |
| Invariants.MultiLevel | main.js:114-124 | a grant covering two consecutive thresholds yields at least two level-ups |
| Invariants.FreshHeroLargeGrant | main.js:6-24 | a default hero granted 250 experience reaches level 3 with 25 experience, threshold 156, 62 HP (full) and 12 attack |
| Invariants.GainExpWellformed | main.js:114-124 | a non-negative grant keeps the profile well-formed, never lowers level or HP, and changes only the six leveling fields |
| Invariants.ThresholdChain | main.js:117-122 | `m` level-ups and then `n` more grow and consume the thresholds exactly as `m + n` level-ups do |
| Invariants.AccountsCompose | main.js:114-124 | two balanced experience accounts in a row make one balanced account for the sum earned |
| Invariants.GainExpAccount | main.js:114-124 | a grant is accounted exactly: old experience plus the grant equals the new experience plus the thresholds of the levels gained, the new threshold is the grown one, and only the leveling fields change |
| Invariants.ScaledEnemyStaysDown | main.js:236-238 | scaling a defeated enemy's HP for the next room leaves it defeated |
| Invariants.FreshHeroFirstRun | main.js:128-149 | a default hero starting a tier-1 run spends one energy and meets a 58-HP enemy in room 1 of 4, for 80 gold and 48 experience |
| Invariants.StartRunOutcome | main.js:128-149 | with energy: exactly one energy spent, HP set to maximum, the fresh run's fields as the formulas give, any active run discarded with no result recorded, well-formedness kept |
| Invariants.EndRunOutcome | main.js:256-284 | the run is cleared, HP stays at least 1, wins plus losses grow by exactly 1; victory: the full reward paid, a win recorded, best tier the maximum; defeat: only the loss count changes |
| Invariants.EnemyAttackOutcome | main.js:160-182 | the enemy deals between `4+3·tier` and `8+3·tier`; if HP stays positive only HP drops, otherwise the run is lost with 1 HP left |
| Invariants.PaidForRoomWellformed | main.js:216-221 | the profile after a room's quarter payout is well-formed, richer by exactly `round(rewardGold/4)`, not lower in HP, with the same statistics |
| Invariants.LastRoomOutcome | main.js:231-234 | clearing the last room ends the run as a well-formed victory paying the quarter plus the full gold reward, with one more win and the best tier updated |
| Invariants.LastRoomPaysTwice | main.js:216-234 | the last room's profile is the quarter payout followed by `endRun`'s full gold and experience payout |
| Invariants.LastRoomExpAccount | main.js:216-234 | the last room earns exactly a quarter of the experience reward plus the whole reward, accounted against the levels gained |
| Invariants.InnerRoomExpAccount | main.js:216-239 | an earlier room earns exactly a quarter of the experience reward, and the next room starts cleared with the same rewards |
| Invariants.InnerRoomOutcome | main.js:236-239 | clearing an earlier room moves to the next room with the same rewards, heals 5 HP up to the maximum, and the next enemy's HP is the defeated one's leftover scaled for the new room, so it starts defeated |
| Invariants.NextRoomOutcome | main.js:213-254 | clearing a room keeps the game well-formed, never lowers HP, records a win exactly when the run ends and never a loss |
| Invariants.BlowOutcome | main.js:184-209 | the blow deals `attack+roll` or `round(1.8·(attack+roll))` with the skill; a defeated enemy leads to the next room, a surviving one to the enemy's attack; after room 1 every blow defeats the enemy |
| Invariants.PlayerAttackOutcome | main.js:184-211 | an attack keeps the game well-formed and is a no-op without a run; a defeated enemy does not retaliate; wins plus losses grow by 1 exactly when the run ends |
| Invariants.ClearingEveryRoomPays | main.js:213-267 | clearing every remaining room pays a quarter of the gold per room plus the full gold reward once more, ends well-formed, and records one win and the tier |
| Invariants.ClearingEveryRoomLevels | main.js:213-267 | over the same rooms, the experience held plus a quarter of the reward per room plus the whole reward equals the experience held at the end plus the thresholds of the levels gained |
| Invariants.FreshHeroClearsFirstRun | main.js:213-267 | clearing all four rooms of a fresh tier-1 run earns 160 gold and 96 experience, twice each reward, and leaves the hero at level 1 |
| Invariants.ArtifactEffect | main.js:316-337 | granting pool entry `i` appends exactly that entry and applies exactly its one effect from an independent effect table; the threshold artifact leaves a threshold of at least 20 |
| Invariants.ArtifactMayLeaveExpAboveThreshold | main.js:316-322 | with no leveling after the grant, experience can end at or above the new threshold |
| Invariants.OfflineClaimCooldown | main.js:344-353 | a claim that is the first or comes 3 minutes or more after the last always succeeds (+150 gold, +1 energy up to the maximum, timestamp set, nothing else changed); a second claim within 3 minutes of an accepted claim at a non-zero time changes nothing |
| Invariants.BuyUpgradeOutcome | main.js:361-375 | a paid upgrade takes exactly the cost; "hp" leaves HP at the new maximum, "energy" leaves energy at the new maximum, "atk" adds 2 attack, any other kind only takes the gold |
| Invariants.RefusedActionChangesNothing | main.js:128-132 | an action refused for lack of energy, gold or crystals, an early claim, or an attack or flight without a run leaves the whole state untouched |
| Invariants.ArtifactPreserves | main.js:316-337 | granting an artifact keeps the profile well-formed and records no result |
| Invariants.ShopPreserves | main.js:344-413 | the offline reward, upgrades and shop keep the game well-formed (energy within its maximum given non-negative gains), record no result and leave the run alone |
| Invariants.StepPreserves | main.js:452-509 | every admissible action keeps the game well-formed, never lowers best tier, wins or losses, and adds exactly one result when it ends the run |
| Invariants.PlayPreserves | main.js:452-509 | any sequence of admissible actions keeps the game well-formed and never lowers best tier, wins or losses |
| Session.Game.constructor | main.js:6-27 | a new game holds the default profile, no run, and is well-formed |
| Session.Game.GainExp | main.js:114-124 | the loop leaves the experience below the threshold and the profile that `Engine.GainExp` computes, touching only the leveling fields |
| Session.Game.StartRun | main.js:128-158 | the new state is `Engine.StartRun` of the old, and the threshold stays at least 1 |
| Session.Game.EnemyAttack | main.js:160-182 | the new state is `Engine.EnemyAttack` of the old |
| Session.Game.PlayerAttack | main.js:184-211 | the new state is `Engine.PlayerAttack` of the old |
| Session.Game.NextRoomOrEnd | main.js:213-254 | the new state is `Engine.NextRoomOrEnd` of the old |
| Session.Game.EndRun | main.js:256-284 | the new state is `Engine.EndRun` of the old |
| Session.Game.Flee | main.js:460-464 | the new state is `Engine.Flee` of the old: a loss when a run is active, otherwise nothing |
| Session.Game.AddRandomArtifact | main.js:316-340 | the new state is `Engine.AddArtifact` of the old, touching only artifacts, threshold, attack, max HP and gold, and the threshold stays at least 1 |
| Session.Game.ClaimOfflineReward | main.js:344-357 | the new state is `Engine.ClaimOfflineReward` of the old, and the threshold stays at least 1 |
| Session.Game.BuyUpgrade | main.js:361-379 | the new state is `Engine.BuyUpgrade` of the old, and the threshold stays at least 1 |
| Session.Game.BuyCrystals | main.js:383-389 | the new state is `Engine.BuyCrystals` of the old, and the threshold stays at least 1 |
| Session.Game.ExchangeCrystalsForGold | main.js:391-401 | the new state is `Engine.ExchangeCrystalsForGold` of the old, and the threshold stays at least 1 |
| Session.Game.BuyEnergyWithCrystals | main.js:403-413 | the new state is `Engine.BuyEnergyWithCrystals` of the old, and the threshold stays at least 1 |
| Session.Game.Perform | main.js:452-509 | one dispatched action leaves `Engine.Step` of the old state, keeps the game well-formed, and never lowers the best tier |

## Left out

- DOM rendering, logging and status text (`byId`, `updateHeader`, `updatePlayerPanel`, `updateStatsPanel`, `renderArtifacts`, `logBattle`, `setRunStatus`, `setBattleButtonsEnabled`): they only display the state.
- `alert` messages: host-platform output, with no effect on the state.
- Event wiring and UI selection (`initTabs`, `initDifficultyButtons`, `getSelectedTier`, the `init*Controls` functions, the load handler). They are click glue; `Engine.Action`, `Engine.Step` and `Session.Game.Perform` stand for the dispatch they perform. `Engine.Admissible` assumes tier ≥ 1, because the buttons' `data-tier` values live in the markup, which main.js does not contain.
- Persistence (`loadState`, `saveState`, `localStorage`, JSON): this is I/O. A new game starts from the default profile, and well-formedness takes the place of a validated saved state.
- `initTelegram`: a foreign call into the host platform.
- `Math.random` and `Date.now`: they become the bounded parameters `roll`, `spread`, `index` and `now`.
- Floating-point arithmetic: every rounded product is computed exactly on integers, whose operands in the source are integers too. Exact halves do occur (`0.25·90 = 22.5`; `1.25·930` and `0.95·930` end in `.5`). 0.25 and 1.25 are exact in binary, so those products are exact and `Math.round` rounds the halves up, as the divisions do. The double nearest 0.95 is off by less than half an ulp; for example `930·0.95` evaluates to `883.5`, which rounds to `884 = ShrinkThreshold(930)`. For `1.8·d = 9d/5` and `h·(1+0.2·room) = h(5+room)/5` the exact product is a multiple of 0.2, so it is never closer than 0.1 to a half and the tiny double error cannot change the rounding. The model does not prove that the double computation agrees with the integer one for every operand.
- JavaScript object aliasing: `currentRun` and `state.artifacts` are edited in place in the source. The model replaces them with new values. No other reference to either object exists, so nothing observes the difference. A granted artifact is a value equal to its pool entry, not a reference to it.
