# MonsterCombat battle engine — a Dafny model

This project models the battle engine of MonsterCombat, a turn-based monster-fighting game, and the
text parser that builds its actions. The repository holds two snapshots of the same engine, and both are modelled:

- the current `edu/kit/kastel/monstercombat/model` tree, in the `Edu*` modules;
- the older `monstercombat/model` tree, in the `Legacy*` modules.

Where the two snapshots agree they share the modules below.

- `Stats`, `Elements`, `Numbers`: stats, elements and the arithmetic they share.
  - Stats: the stage-to-factor formula with base factors HP 0, ATK/DEF/SPD 2, PRC/AGL 3.
  - Elements: the WATER → FIRE → EARTH → WATER advantage cycle and its 2.0 / 0.5 / 1.0 multipliers.
  - Numbers: `ceil`, clamping to [-5, 5].
- `Combatant`: a monster's battle state as a value. It covers HP with clamped damage and healing, stat stages clamped to [-5, 5], one status condition, and a protection window that counts down once per round.
  - `EduState.MonsterState` is the class the edu tree updates in place.
  - `LegacyModel.Monster` is the older class that holds this state itself.
- `Randomness`: the game's random generator as a source of draws in [0, 1) with a cursor.
  - `checkProbability(p)` succeeds when `draw × 100 <= p`.
  - `getRandomInt(min, max)` is `min + floor(draw × (max − min + 1))`.
  - Every member that consumes randomness states how far the cursor moves.
- `Text`, `Loading`, `Naming`, `Ordering`, `Repetition`, `Encounter`: shared pieces of the two trees.
  - Text: Java's `trim`, `split` and `Integer.parseInt`.
  - Loading: line filtering and monster lines.
  - Naming: the `name#n` disambiguation.
  - Ordering: the stable, fastest-first turn order.
  - Repetition: repeat expansion.
  - Encounter: the damage scale.
- `EduEffect` / `LegacyEffect`: the effect variants (damage, healing, stat change, status condition, protection, repeat, continue) as one datatype each.
- `EduExecution` / `LegacyExecution`: what an effect does when it lands.
  - `Apply` is the dispatch as a function over the world of combatant states.
  - `Execute` is the same dispatch as a method that changes the monster objects.
- `EduBattle` / `LegacyBattle`: the action pipeline.
  - The queue is built by expanding repeats.
  - The first entry gates the rest.
  - The hit chance scales with the user's precision over the target's agility.
  - Sleep and burn are handled at the end of the turn.
  - `EduBattle.BattleManager` is the edu class; in the legacy tree this code is part of `Competition`.
- `EduCompetition` / `LegacyCompetition`: the competition.
  - Adding monsters, with duplicate names disambiguated.
  - The execute phase in speed order, stopping as soon as the contest is decided.
  - The win check, the end-of-round protection countdown, reset and clear.
- `EduEffectParser`, `EduConfig`, `LegacyConfig`: the configuration loader.
  - Trimmed, non-blank lines hold `action … end action` blocks (with `repeat … end repeat`) and `monster` lines.
  - Every error path the loader has is a `Failure` value.

Each state-changing method is proved against a function on values that describes it: `Apply`, `ActionSpec`, `ExecutePhase`, `Configure` and others. The lemmas next to those functions state what the game promises about them.

The model follows the code in four places where the game's written description says otherwise.
- Damage to a health-protected monster is always blocked, so the corrected burn tick does nothing while the burning monster is protected. The description says self-inflicted damage always applies.
- Healing in the older tree uses the value itself in BASE mode, not a third of it.
- In the older tree, an action whose first effect fails returns before the end-of-turn status processing.
- In the newer tree a monster is defeated when its HP is at or below 0 or its condition is FAINTED, not by HP alone.

## Model

| member | source | states |
|---|---|---|
| Stats.BaseFactor | edu/kit/kastel/monstercombat/model/Stat.java:4-9 | HP and only HP has base factor 0; ATK, DEF and SPD have 2; PRC and AGL have 3 |
| Stats.StageFactor | edu/kit/kastel/monstercombat/model/Stat.java:29-35 | the factor is positive; for a stage s >= 0 it is (b + s) / b, for s < 0 it is b / (b - s), with b the stat's base factor |
| Stats.StageFactorAroundOne | edu/kit/kastel/monstercombat/model/Stat.java:29-35 | stage 0 is neutral (factor 1), positive stages boost (> 1), negative stages weaken (< 1) |
| Stats.StageFactorIncreasing | edu/kit/kastel/monstercombat/model/Stat.java:29-35 | a higher stage always gives a strictly larger factor |
| Stats.FromString | edu/kit/kastel/monstercombat/model/Stat.java:37-44 | a found stat has exactly that representation; no result means no stat has it |
| Stats.FromStringName | edu/kit/kastel/monstercombat/model/Stat.java:19-44 | printing a stat and parsing it back gives the same stat |
| Elements.EffectivenessTrichotomy | edu/kit/kastel/monstercombat/model/Element.java:20-32 | for every attacker/target pair exactly one of very, not very and normal effective holds |
| Elements.AdvantageIsACycle | edu/kit/kastel/monstercombat/model/Element.java:20-24 | the advantage relation WATER > FIRE > EARTH > WATER is a three-cycle |
| Elements.Multiplier | edu/kit/kastel/monstercombat/model/Element.java:34-42 | the multiplier is 2.0 exactly when very effective, 0.5 exactly when not very effective and 1.0 exactly when normal |
| Elements.FromString | edu/kit/kastel/monstercombat/model/Element.java:44-51 | a found element has exactly that representation; no result means no element has it |
| Elements.FromStringName | edu/kit/kastel/monstercombat/model/Element.java:15-51 | printing an element and parsing it back gives the same element |
| Numbers.Ceil | edu/kit/kastel/monstercombat/model/effect/EffectDamage.java:103 | the result is the least integer not below x |
| Numbers.ClampStage | edu/kit/kastel/monstercombat/model/MonsterState.java:71-75 | the result lies in [-5, 5], equals x inside the window and the nearer bound outside it |
| Numbers.AtLeastOne | edu/kit/kastel/monstercombat/model/MonsterState.java:40-49 | the result is the larger of 1.0 and x |
| Combatant.Fresh | edu/kit/kastel/monstercombat/model/MonsterState.java:16-34 | a new combatant has full HP, the given base stats, PRC and AGL at 1, every stage at 0, the neutral status and no protection |
| Combatant.EffectiveStat | edu/kit/kastel/monstercombat/model/MonsterState.java:40-49 | the effective stat is base x stage factor x status multiplier, floored at 1.0 |
| Combatant.TakeDamage | edu/kit/kastel/monstercombat/model/MonsterState.java:77-84 | a combatant protected against damage is untouched; otherwise HP drops by the amount but not below 0, and the reported amount is the HP actually lost |
| Combatant.Heal | edu/kit/kastel/monstercombat/model/MonsterState.java:86-91 | HP rises by the amount but not above the maximum, and the reported amount is the HP actually gained |
| Combatant.HpStaysInRange | edu/kit/kastel/monstercombat/model/MonsterState.java:77-91 | from HP in [0, maxHp], any non-negative damage or healing keeps HP in [0, maxHp] and reports an amount between 0 and the requested one |
| Combatant.HealByMaxRestores | edu/kit/kastel/monstercombat/model/Competition.java:288-291 | the reset's heal by the maximum HP restores full HP from any non-negative HP |
| Combatant.WithStage | edu/kit/kastel/monstercombat/model/MonsterState.java:71-75 | the changed stage becomes old + delta clamped to [-5, 5]; every other stage and every other field is unchanged |
| Combatant.WithStageKeepsRange | edu/kit/kastel/monstercombat/model/MonsterState.java:71-75 | a stat change keeps every stage within [-5, 5] |
| Combatant.WithStageUndo | edu/kit/kastel/monstercombat/model/Competition.java:295-299 | the reset's change by minus the current stage always lands on stage 0 |
| Combatant.ZeroStagesClears | edu/kit/kastel/monstercombat/model/Competition.java:295-299 | after the reset loop every listed stat other than HP is at stage 0 and the others keep their stage |
| Combatant.DecreaseProtection | edu/kit/kastel/monstercombat/model/MonsterState.java:115-126 | a positive duration counts down by one; reaching 0 clears both protection flags and reports whether either was set; a duration at or below 0 is left alone; HP, stages and status never change |
| Combatant.ProtectionHolds | edu/kit/kastel/monstercombat/model/MonsterState.java:105-126 | a protection set for d rounds is still in force, with the same flags, after any k < d countdowns |
| Combatant.ProtectionExpiresOnTime | edu/kit/kastel/monstercombat/model/MonsterState.java:105-126 | the d-th countdown of a protection set for d >= 1 rounds clears both flags, leaves duration 0 and reports the expiry exactly when a flag was set |
| Combatant.Relative | edu/kit/kastel/monstercombat/model/effect/EffectDamage.java:43-46 | a percentage of the maximum HP, rounded up |
| Combatant.RelativeBounds | edu/kit/kastel/monstercombat/model/effect/EffectHealing.java:28-39 | a percentage in [0, 100] of a non-negative maximum lies between 0 and that maximum, and is at least 1 when both are positive |
| Text.TrimmedForm | edu/kit/kastel/monstercombat/model/ConfigurationLoader.java:72-73 | a trimmed line is empty exactly when the line is all blanks, and otherwise has no blank at either end |
| Text.Split | edu/kit/kastel/monstercombat/model/ConfigurationLoader.java:171 | every token is free of spaces, and a line without a space is one token |
| Text.SplitLimit | edu/kit/kastel/monstercombat/model/ConfigurationLoader.java:104 | a split with a limit gives between 1 and limit pieces, all but the last free of spaces |
| Text.SplitOfJoin | edu/kit/kastel/monstercombat/model/ConfigurationLoader.java:171 | splitting a line built from space-free tokens, the last not empty, gives the tokens back |
| Text.ParseInt | edu/kit/kastel/monstercombat/model/ConfigurationLoader.java:224-227 | a parsed number fits in 32 bits and comes from a string starting with a digit or a sign; the empty string and a lone sign are refused |
| Text.ParseIntOfIntToString | edu/kit/kastel/monstercombat/model/ConfigurationLoader.java:224-227 | every 32-bit number survives printing and parsing back |
| Text.NatToStringInjective | edu/kit/kastel/monstercombat/model/Competition.java:68-71 | distinct numbers print differently |
| Randomness.HitBounds | edu/kit/kastel/monstercombat/model/Competition.java:143-155 | a probability of 100 or more always succeeds and a negative one never does |
| Randomness.RandomInt | edu/kit/kastel/monstercombat/model/Competition.java:131-137 | a random integer lies in [min, max]; an empty range is an illegal-argument failure |
| Randomness.RandomSource.NextDouble | edu/kit/kastel/monstercombat/model/effect/EffectDamage.java:84 | the next draw is returned and the cursor advances by one |
| Randomness.RandomSource.CheckProbability | edu/kit/kastel/monstercombat/model/Competition.java:143-155 | the answer is whether the next draw, as a percentage, is at most the probability; one draw is used |
| Randomness.RandomSource.GetRandomInt | edu/kit/kastel/monstercombat/model/Competition.java:131-137 | the result is RandomInt of the next draw, and a draw is used only when the range is not empty |
| Ordering.SpeedOrder | edu/kit/kastel/monstercombat/model/Competition.java:220-223 | the turn order holds every roster position exactly once |
| Ordering.InsertOrdered | edu/kit/kastel/monstercombat/model/Competition.java:220-223 | inserting a new position behind every entry that goes before it keeps the order sorted |
| Ordering.SpeedOrderIsStableDescending | edu/kit/kastel/monstercombat/model/Competition.java:220-223 | the turn order is a permutation of the roster, fastest first, and monsters of equal speed keep their roster order (the sort is stable) |
| Naming.TaggedInjective | edu/kit/kastel/monstercombat/model/Competition.java:68-71 | two tagged names of one base name are equal exactly when their suffixes are |
| Naming.TaggedUpToSize | edu/kit/kastel/monstercombat/model/Competition.java:66-70 | there are exactly n tagged names with suffixes 1 to n, so the suffix search ends |
| Naming.DisplayName | edu/kit/kastel/monstercombat/model/Competition.java:63-77 | a free name is kept; a taken one becomes base#n for the smallest n >= 1 whose name is free; the result is never taken |
| Repetition.CopiesShape | edu/kit/kastel/monstercombat/model/effect/EffectRepeat.java:31-37 | a count <= 0 adds nothing; otherwise count x body-length effects, exactly those of the body |
| Repetition.CopiesAppend | edu/kit/kastel/monstercombat/model/effect/EffectRepeat.java:34-36 | one more round of the loop appends one more copy of the body |
| Repetition.AppendCopies | edu/kit/kastel/monstercombat/model/effect/EffectRepeat.java:31-37 | the repeat loop appends exactly count copies of the body to the queue |
| Encounter.Scale | edu/kit/kastel/monstercombat/model/BattleManager.java:64-67 | the scaled hit chance keeps the sign of the hit rate, and equal PRC and AGL leave it unchanged |
| Encounter.BaseDamageSign | edu/kit/kastel/monstercombat/model/effect/EffectDamage.java:65-104 | with positive factors a positive base value deals at least 1 damage, 0 deals 0 and a negative value at most 0 |
| Loading.IntAt | edu/kit/kastel/monstercombat/model/ConfigurationLoader.java:224-227 | a missing token is an index failure, a malformed one a number-format failure, and a parsed one its value |
| Loading.Filtered | edu/kit/kastel/monstercombat/model/ConfigurationLoader.java:70-75 | no more lines than the input, and none of them empty |
| Loading.FilteredFromInput | edu/kit/kastel/monstercombat/model/ConfigurationLoader.java:70-75 | every kept line is the trimmed form of some input line |
| Loading.FilteredKeepsLine | edu/kit/kastel/monstercombat/model/ConfigurationLoader.java:70-75 | no input line that is not blank is lost |
| Loading.FilterLines | edu/kit/kastel/monstercombat/model/ConfigurationLoader.java:70-75 | the filtering loop keeps the trimmed non-blank lines in input order |
| Loading.LookUp | edu/kit/kastel/monstercombat/model/ConfigurationLoader.java:232-241 | the lookup succeeds exactly when every name is defined, and then gives the actions in the order named; otherwise it is a malformed-configuration failure |
| Loading.LookUpActions | edu/kit/kastel/monstercombat/model/ConfigurationLoader.java:232-241 | the lookup loop computes LookUp |
| Loading.MonsterLine | edu/kit/kastel/monstercombat/model/ConfigurationLoader.java:209-246 | fewer than eight tokens is a failure; a monster read has the line's name, element, HP, ATK, DEF and SPD and one action per remaining token, each the defined action of that name |
| Loading.UnknownActionRefused | edu/kit/kastel/monstercombat/model/ConfigurationLoader.java:234-238 | a monster line naming an undefined action is refused |
| Loading.ReadMonster | edu/kit/kastel/monstercombat/model/ConfigurationLoader.java:209-246 | reading a monster line computes MonsterLine |
| Randomness.RandomSource.constructor | edu/kit/kastel/monstercombat/model/Competition.java:40 | the source starts at the first draw of the sequence fixed by the seed |
| EduConditions.Multiplier | edu/kit/kastel/monstercombat/model/StatusCondition.java:40-61 | the multiplier is 0.75 exactly for WET on DEF, BURN on ATK and QUICKSAND on SPD, and 1.0 for every other pair |
| EduConditions.PreventsActions | edu/kit/kastel/monstercombat/model/StatusCondition.java:63-65 | a condition prevents actions exactly when it is SLEEP or FAINTED |
| EduConditions.FromString | edu/kit/kastel/monstercombat/model/StatusCondition.java:67-74 | a representation that names a condition gives that condition; any other string gives NONE |
| EduConditions.FromStringName | edu/kit/kastel/monstercombat/model/StatusCondition.java:23-26 | printing a condition and parsing it back gives the same condition |
| EduState.Effective | edu/kit/kastel/monstercombat/model/MonsterState.java:40-49 | an effective stat is base x stage factor x the status condition's multiplier, raised to 1.0 when lower |
| EduState.MonsterState.constructor | edu/kit/kastel/monstercombat/model/MonsterState.java:16-34 | a new state is the fresh combatant with the NONE condition |
| EduState.MonsterState.EffectiveStat | edu/kit/kastel/monstercombat/model/MonsterState.java:40-49 | the object's effective stat is its base x stage factor x its condition's multiplier, raised to 1.0 when lower |
| EduState.MonsterState.IsDefeated | edu/kit/kastel/monstercombat/model/MonsterState.java:93-95 | the state is defeated exactly when its HP is at most 0 or its condition is FAINTED |
| EduState.MonsterState.SetStatusCondition | edu/kit/kastel/monstercombat/model/MonsterState.java:63-65 | only the condition changes |
| EduState.MonsterState.SetStatChange | edu/kit/kastel/monstercombat/model/MonsterState.java:71-75 | the new state is the old one with the stage changed and clamped (Combatant.WithStage) |
| EduState.MonsterState.TakeDamage | edu/kit/kastel/monstercombat/model/MonsterState.java:77-84 | the new state and the returned amount are those of Combatant.TakeDamage |
| EduState.MonsterState.Heal | edu/kit/kastel/monstercombat/model/MonsterState.java:86-91 | the new state and the returned amount are those of Combatant.Heal |
| EduState.MonsterState.SetProtection | edu/kit/kastel/monstercombat/model/MonsterState.java:105-109 | the protection flags and duration are overwritten and nothing else changes |
| EduState.MonsterState.DecreaseProtectionDuration | edu/kit/kastel/monstercombat/model/MonsterState.java:115-126 | the new state and the expiry report are those of Combatant.DecreaseProtection |
| EduEffect.BurnDamage | edu/kit/kastel/monstercombat/model/effect/EffectDamage.java:27-32 | the burn tick is a relative fire damage of 10% that aims at the target slot and always hits |
| EduEffect.FixedAtConstruction | edu/kit/kastel/monstercombat/model/effect/EffectRepeat.java:13-23 | defense, repeat and continue effects aim at the user, and a repeat reports a hit rate of 100 |
| EduEffect.ActualTarget | edu/kit/kastel/monstercombat/model/effect/Effect.java:30-32 | a user-aimed effect lands on the user, any other on the selected target |
| EduEffect.ReportedValue | edu/kit/kastel/monstercombat/model/effect/Effect.java:48-50 | a damage effect reports its value, every other effect 0 |
| EduEffect.ExpansionOfRepeat | edu/kit/kastel/monstercombat/model/effect/EffectRepeat.java:31-37 | a repeat expands only into entries of its own body; nested repeats are not expanded further |
| EduEffect.AddToQueue | edu/kit/kastel/monstercombat/model/effect/Effect.java:36-38 | adding to the queue appends the effect itself, or for a repeat its body count times |
| EduEffect.FlattenAppend | edu/kit/kastel/monstercombat/model/BattleManager.java:35-43 | the queue of an action with one more effect is the old queue followed by that effect's expansion |
| EduExecution.DamageFactors | edu/kit/kastel/monstercombat/model/effect/EffectDamage.java:65-104 | the five damage multipliers are positive: the element multiplier of the action against the target, ATK over DEF, a critical 2.0 exactly when the critical draw hits 10 x SPD ratio, 1.5 exactly for a same-element action, and a random factor in [0.85, 1.0) |
| EduExecution.DamageAmountBounds | edu/kit/kastel/monstercombat/model/effect/EffectDamage.java:43-49 | relative damage of 0 to 100 percent stays within the target's maximum HP; base damage of a positive value is at least 1 and of 0 is 0 |
| EduExecution.DamageExec | edu/kit/kastel/monstercombat/model/effect/EffectDamage.java:35-62 | damage succeeds exactly when the target is not defeated; the target alone takes the damage (none when it is protected); only base damage uses two draws |
| EduExecution.HealAmount | edu/kit/kastel/monstercombat/model/effect/EffectHealing.java:28-39 | base healing is a third of the value, rounded up |
| EduExecution.HealExec | edu/kit/kastel/monstercombat/model/effect/EffectHealing.java:23-44 | healing succeeds exactly when the target is not defeated, changes only the target and never lifts it above its maximum |
| EduExecution.StatChangeExec | edu/kit/kastel/monstercombat/model/effect/EffectStatChange.java:17-39 | a stat change succeeds exactly when the target is not defeated; a lowering from another monster on a stat-protected target changes nothing; otherwise the target's stage changes and nothing else |
| EduExecution.StatChangeNeverBlocked | edu/kit/kastel/monstercombat/model/effect/EffectStatChange.java:23-29 | increases, and decreases a monster applies to itself, always take effect on a target that is not defeated |
| EduExecution.InflictExec | edu/kit/kastel/monstercombat/model/effect/EffectStatusCondition.java:15-32 | inflicting succeeds exactly when the target is not defeated, sets the condition only when the target has none, and never replaces an existing one |
| EduExecution.DefenseExec | edu/kit/kastel/monstercombat/model/effect/EffectDefense.java:29-48 | defense succeeds exactly when the user is not defeated and protects the user, against exactly one of damage and stat changes, for the effect's duration |
| EduExecution.Apply | edu/kit/kastel/monstercombat/model/effect/Effect.java:34 | any effect changes at most the user and the target, uses at most two draws, changes nothing when it fails, and repeat and continue succeed without changing anything |
| EduExecution.CalculateBaseDamage | edu/kit/kastel/monstercombat/model/effect/EffectDamage.java:65-104 | base damage uses the critical draw and then the random draw and equals BaseDamage of the resulting factors |
| EduExecution.ExecuteDamage | edu/kit/kastel/monstercombat/model/effect/EffectDamage.java:35-62 | the roster and the draws end as DamageExec says |
| EduExecution.ExecuteHealing | edu/kit/kastel/monstercombat/model/effect/EffectHealing.java:23-44 | the roster ends as HealExec says |
| EduExecution.ExecuteStatChange | edu/kit/kastel/monstercombat/model/effect/EffectStatChange.java:17-39 | the roster ends as StatChangeExec says |
| EduExecution.ExecuteInflict | edu/kit/kastel/monstercombat/model/effect/EffectStatusCondition.java:15-32 | the roster ends as InflictExec says |
| EduExecution.ExecuteDefense | edu/kit/kastel/monstercombat/model/effect/EffectDefense.java:29-48 | the roster ends as DefenseExec says |
| EduExecution.Execute | edu/kit/kastel/monstercombat/model/effect/EffectContinue.java:12-14 | the roster and the draws end as Apply says, for every kind of effect |
| EduModel.Action.constructor | edu/kit/kastel/monstercombat/model/Action.java:14-18 | a new action has its name and element and no effects |
| EduModel.Action.AddEffect | edu/kit/kastel/monstercombat/model/Action.java:28-30 | the effect is appended at the end |
| EduModel.Action.GetEffects | edu/kit/kastel/monstercombat/model/Action.java:32-34 | the effects, in order |
| EduModel.Action.FirstEffectHitRate | edu/kit/kastel/monstercombat/model/Action.java:66-71 | 0 for an action without effects, otherwise the first effect's hit rate (100 for a repeat) |
| EduModel.Monster.constructor | edu/kit/kastel/monstercombat/model/Monster.java:19-25 | a new monster has its name as display name, no actions, and a fresh state |
| EduModel.Monster.SetDisplayName | edu/kit/kastel/monstercombat/model/Monster.java:35-37 | only the display name changes |
| EduModel.Monster.AddAction | edu/kit/kastel/monstercombat/model/Monster.java:75-77 | the action is appended at the end |
| EduModel.Monster.GetActions | edu/kit/kastel/monstercombat/model/Monster.java:79-81 | the actions, in insertion order |
| EduModel.Monster.GetAction | edu/kit/kastel/monstercombat/model/Monster.java:83-90 | the first action with that name, or null exactly when no action has it |
| EduModel.Monster.EffectiveStat | edu/kit/kastel/monstercombat/model/Monster.java:47-49 | the monster's effective stat is its state's base x stage factor x condition multiplier, raised to 1.0 when lower |
| EduModel.Monster.IsDefeated | edu/kit/kastel/monstercombat/model/Monster.java:100-102 | the monster is defeated exactly when its state's HP is at most 0 or its condition is FAINTED |
| EduModel.Monster.SetStatusCondition | edu/kit/kastel/monstercombat/model/Monster.java:63-65 | only the state's condition changes |
| EduModel.Monster.SetStatChange | edu/kit/kastel/monstercombat/model/Monster.java:71-73 | the state changes as Combatant.WithStage says |
| EduModel.Monster.TakeDamage | edu/kit/kastel/monstercombat/model/Monster.java:92-94 | the state and the amount are those of Combatant.TakeDamage |
| EduModel.Monster.Heal | edu/kit/kastel/monstercombat/model/Monster.java:96-98 | the state and the amount are those of Combatant.Heal |
| EduModel.Monster.SetProtection | edu/kit/kastel/monstercombat/model/Monster.java:104-106 | the state's protection is overwritten |
| EduModel.Monster.DecreaseProtectionDuration | edu/kit/kastel/monstercombat/model/Monster.java:120-122 | the state and the report are those of Combatant.DecreaseProtection |
| EduBattle.HitChance | edu/kit/kastel/monstercombat/model/BattleManager.java:60-67 | an effect aimed at the user keeps its hit rate; a non-negative hit rate gives a non-negative chance |
| EduBattle.TryEffect | edu/kit/kastel/monstercombat/model/BattleManager.java:60-77 | an effect takes effect only after a hit, a miss changes nothing and uses one draw, and a failed effect changes nothing |
| EduBattle.RunRest | edu/kit/kastel/monstercombat/model/BattleManager.java:53-56 | every entry after the first is tried once, whatever the others did, with one to three draws each |
| EduBattle.RunQueue | edu/kit/kastel/monstercombat/model/BattleManager.java:45-58 | an empty queue does nothing; when the first entry fails the whole queue changes nothing and uses one draw |
| EduBattle.EndOfTurn | edu/kit/kastel/monstercombat/model/BattleManager.java:79-101 | only the acting monster can change, and a monster without a condition or asleep is untouched and draws nothing |
| EduBattle.BurnTickThrows | edu/kit/kastel/monstercombat/model/BattleManager.java:90-93 | as written, a burn that the roll does not cure always throws a null-pointer failure; in every other case the written and the corrected end of turn agree |
| EduBattle.BurnTickThrowsExample | edu/kit/kastel/monstercombat/model/BattleManager.java:90-93 | a burning monster at 100 HP whose cure roll fails makes the end of turn throw |
| EduBattle.BurnTickDamages | edu/kit/kastel/monstercombat/model/BattleManager.java:79-101 | in the corrected end of turn a burning monster that is not cured loses a tenth of its maximum HP, rounded up and not below 0, or nothing while protected; nothing else about it changes |
| EduBattle.ActionSpec | edu/kit/kastel/monstercombat/model/BattleManager.java:16-29 | a sleeping monster only rolls to wake up (one draw, only its condition can change); any other runs the queue and then its end of turn |
| EduBattle.EmptyActionIsNoOp | edu/kit/kastel/monstercombat/model/BattleManager.java:16-29 | a turn with an empty action and no condition changes nothing and draws nothing |
| EduBattle.RollHit | edu/kit/kastel/monstercombat/model/BattleManager.java:69-70 | the hit roll uses one draw against the hit chance and changes no monster |
| EduBattle.TryExecute | edu/kit/kastel/monstercombat/model/BattleManager.java:60-77 | the roster and the draws end as TryEffect says |
| EduBattle.BattleManager.constructor | edu/kit/kastel/monstercombat/model/BattleManager.java:9-13 | the manager uses the given random source |
| EduBattle.BattleManager.CreateEffectQueue | edu/kit/kastel/monstercombat/model/BattleManager.java:35-43 | the queue is every effect's expansion, in order |
| EduBattle.BattleManager.ExecuteEffect | edu/kit/kastel/monstercombat/model/BattleManager.java:60-77 | the roster and the draws end as TryEffect says |
| EduBattle.BattleManager.ExecuteEffectQueue | edu/kit/kastel/monstercombat/model/BattleManager.java:45-58 | the roster and the draws end as RunQueue says |
| EduBattle.BattleManager.ProcessStatusConditions | edu/kit/kastel/monstercombat/model/BattleManager.java:79-101 | the roster and the draws end as the corrected EndOfTurn says |
| EduBattle.BattleManager.ExecuteAction | edu/kit/kastel/monstercombat/model/BattleManager.java:16-29 | the roster and the draws end as ActionSpec says |
| EduCompetition.SurvivorsExact | edu/kit/kastel/monstercombat/model/Competition.java:262-270 | the survivors are exactly the positions whose monster is not defeated, in increasing order |
| EduCompetition.SoleSurvivor | edu/kit/kastel/monstercombat/model/Competition.java:273-277 | with exactly one survivor every other monster is defeated |
| EduCompetition.SpeedKeys | edu/kit/kastel/monstercombat/model/Competition.java:221-223 | the sort key of each monster is its effective speed |
| EduCompetition.Turn | edu/kit/kastel/monstercombat/model/Competition.java:225-249 | a defeated monster is skipped and a monster without an action passes, both changing nothing; a turn decides the contest exactly when the monster acted and at most one monster is left standing |
| EduCompetition.NobodyActs | edu/kit/kastel/monstercombat/model/Competition.java:225-249 | when every remaining monster of the order is defeated or passes, the rest of the phase changes nothing and draws nothing |
| EduCompetition.PassingPhase | edu/kit/kastel/monstercombat/model/Competition.java:219-250 | without an action, or with every monster defeated, the execute phase changes nothing and draws nothing |
| EduCompetition.EndRound | edu/kit/kastel/monstercombat/model/Competition.java:252-258 | every monster's protection counts down once, defeated monsters included, and nothing else changes |
| EduCompetition.ChampionAfterEndRound | edu/kit/kastel/monstercombat/model/Competition.java:252-258 | the end of a round never changes who would win |
| EduCompetition.EndRoundKeepsStanding | edu/kit/kastel/monstercombat/model/Competition.java:252-258 | the end of a round never changes who is defeated or who survives |
| EduCompetition.ResetAll | edu/kit/kastel/monstercombat/model/Competition.java:288-300 | every monster is reset, one by one |
| EduCompetition.ResetRestores | edu/kit/kastel/monstercombat/model/Competition.java:288-300 | after a reset a monster with HP >= 0 is at full HP, has condition NONE and every stage other than HP at 0, and keeps its protection |
| EduCompetition.ResetMonster | edu/kit/kastel/monstercombat/model/Competition.java:291-299 | one monster's state becomes its reset state |
| EduCompetition.ResetRoster | edu/kit/kastel/monstercombat/model/Competition.java:288-300 | the roster's states become ResetAll of the old ones |
| EduCompetition.CountConscious | edu/kit/kastel/monstercombat/model/Competition.java:261-270 | the count is the number of survivors; with one survivor the last conscious monster is that one, with none it is null |
| EduCompetition.Competition.constructor | edu/kit/kastel/monstercombat/model/Competition.java:30-45 | a new competition has no monsters and no names, round 0, is not decided and has no winner or current references |
| EduCompetition.Competition.AddMonster | edu/kit/kastel/monstercombat/model/Competition.java:58-77 | the monster is appended; a new name is kept; a taken name becomes name#n with the smallest free n, never colliding with a name in use; the contest state and the current monster, action and target are unchanged |
| EduCompetition.Competition.CheckDecided | edu/kit/kastel/monstercombat/model/Competition.java:260-286 | with at most one survivor the contest is decided and the survivor, or nobody, wins; otherwise nothing changes |
| EduCompetition.Competition.TakeTurn | edu/kit/kastel/monstercombat/model/Competition.java:225-249 | one turn of the phase changes the roster and the draws as Turn says and reports whether it decided the contest; when it does, the winner is the one monster left standing, or nobody, and otherwise the winner is unchanged |
| EduCompetition.Competition.ExecuteActionsPhase | edu/kit/kastel/monstercombat/model/Competition.java:219-250 | the roster, the draws and the decision end as ExecutePhase says; a decided contest is won by the one monster left standing, or nobody; an open one keeps its winner |
| EduCompetition.Competition.RunTurns | edu/kit/kastel/monstercombat/model/Competition.java:225-249 | the turns in the speed order leave the roster, the draws and the decision as Turns says, stopping at the turn that decides; the winner is the one left standing, or nobody, once decided |
| EduCompetition.Competition.EndRoundPhase | edu/kit/kastel/monstercombat/model/Competition.java:252-258 | the roster's states become EndRound of the old ones and nothing else changes |
| EduCompetition.Competition.Reset | edu/kit/kastel/monstercombat/model/Competition.java:288-306 | every monster is reset; round 0, not decided, no winner |
| EduCompetition.Competition.Clear | edu/kit/kastel/monstercombat/model/Competition.java:308-317 | no monsters, no names, no current references, round 0, not decided, no winner |
| EduCompetition.Competition.PlayRound | edu/kit/kastel/monstercombat/model/Competition.java:182-186 | after the choice the actions are executed as ExecutePhase says and every protection then counts down; a decided contest is won by the one left standing, or nobody; an open one keeps its winner |
| EduCompetition.Competition.RunRound | edu/kit/kastel/monstercombat/model/Competition.java:165-187 | the round counter goes up; a contest that is or becomes decided at the start stops there unchanged; otherwise the round runs as PlayRound says; whenever the contest is decided the winner is the sole survivor, or nobody, and otherwise it is unchanged |
| EduEffectParser.ParseTargetType | edu/kit/kastel/monstercombat/model/EffectParser.java:234-240 | "user" and only "user" gives USER, "target" and only "target" gives TARGET; anything else is an illegal-argument failure |
| EduEffectParser.ParseAmount | edu/kit/kastel/monstercombat/model/EffectParser.java:61-75 | "base", "rel" and "abs" and only those give BASE, RELATIVE and ABSOLUTE |
| EduEffectParser.ParseAmountLine | edu/kit/kastel/monstercombat/model/EffectParser.java:52-80 | fewer than four tokens is malformed; a parsed damage or heal line has at least five tokens and its target, mode, value and hit rate come from tokens 1 to 4 |
| EduEffectParser.ParseStatusConditionEffect | edu/kit/kastel/monstercombat/model/EffectParser.java:89-104 | fewer than four tokens is malformed; a parsed condition is never NONE and is the one named by token 2 |
| EduEffectParser.ParseStatChangeEffect | edu/kit/kastel/monstercombat/model/EffectParser.java:113-129 | fewer than five tokens is malformed; a parsed stat change changes the stat named by token 2 |
| EduEffectParser.ParseDefenseEffect | edu/kit/kastel/monstercombat/model/EffectParser.java:138-171 | fewer than four tokens is malformed; only the random form draws, once, and needs six tokens, and its duration lies between the parsed minimum and maximum |
| EduEffectParser.ParseContinueEffect | edu/kit/kastel/monstercombat/model/EffectParser.java:217-225 | fewer than two tokens is malformed; the hit rate is token 1 |
| EduEffectParser.ParseEffect | edu/kit/kastel/monstercombat/model/EffectParser.java:25-43 | a line with fewer than two tokens or an unknown keyword is malformed; only a random defense draws; no line parses to a repeat or to burn damage |
| EduEffectParser.ParseDefenseLine | edu/kit/kastel/monstercombat/model/EffectParser.java:138-171 | the result and the draws used are those of ParseDefenseEffect |
| EduEffectParser.ParseEffectLine | edu/kit/kastel/monstercombat/model/EffectParser.java:25-43 | the result and the draws used are those of ParseEffect |
| EduEffectParser.SplitRender | edu/kit/kastel/monstercombat/model/EffectParser.java:26 | the configuration line of a describable effect splits back into its tokens |
| EduEffectParser.ParseRender | edu/kit/kastel/monstercombat/model/EffectParser.java:25-240 | every effect a configuration line can describe (32-bit numbers, fixed duration) is parsed back from its own line without a draw |
| EduEffectParser.AmountWords | edu/kit/kastel/monstercombat/model/EffectParser.java:52-80 | the target, mode, value and hit rate of a damage or heal line parse back to the values the line was written from |
| EduEffectParser.FourTokenAmountLine | edu/kit/kastel/monstercombat/model/EffectParser.java:53-77 | a damage or heal line of exactly four tokens passes the length check and then fails reading the missing hit rate |
| EduEffectParser.TargetWordFirst | edu/kit/kastel/monstercombat/model/EffectParser.java:57 | an unknown target word is refused with an illegal-argument failure before any mode or number is read |
| EduEffectParser.NoneConditionRefused | edu/kit/kastel/monstercombat/model/EffectParser.java:95-99 | "NONE" and unknown condition names are both refused as malformed |
| EduConfig.RepeatLine | edu/kit/kastel/monstercombat/model/ConfigurationLoader.java:168-199 | fewer than two tokens is malformed; only the random form draws, once; a parsed repeat is built on the pending list, or an empty one when none is pending |
| EduConfig.BodyStep | edu/kit/kastel/monstercombat/model/ConfigurationLoader.java:123-152 | a line finishes the block exactly when it is "end action", which keeps the action as built; an open step keeps the action's name and element |
| EduConfig.ActionBody | edu/kit/kastel/monstercombat/model/ConfigurationLoader.java:120-155 | a block read from line index ends after an "end action" line within the input and keeps the action's name and element; running out of lines is a failure |
| EduConfig.ActionBlock | edu/kit/kastel/monstercombat/model/ConfigurationLoader.java:101-155 | a block read has a header of three parts whose name and element the action carries, and ends after its start within the input |
| EduConfig.EndRepeatNeedsRepeat | edu/kit/kastel/monstercombat/model/ConfigurationLoader.java:130-137 | "end repeat" with no repeat open is malformed; with one open it closes it and leaves the action alone |
| EduConfig.RepeatOpensFreshList | edu/kit/kastel/monstercombat/model/ConfigurationLoader.java:138-140 | a repeat line is appended to the action at once, built on the pending list, and a fresh empty list becomes the pending one |
| EduConfig.PendingEffectDetached | edu/kit/kastel/monstercombat/model/ConfigurationLoader.java:143-147 | an effect read while a repeat is open goes to the pending list and not to the action, so it never reaches the repeat already stored |
| EduConfig.DirectEffectAppended | edu/kit/kastel/monstercombat/model/ConfigurationLoader.java:143-149 | with no repeat open an effect is appended to the action's own effects |
| EduConfig.SectionStep | edu/kit/kastel/monstercombat/model/ConfigurationLoader.java:79-89 | a section either fails, changing nothing, or moves forward; defined action names are never lost and at most one monster is appended |
| EduConfig.StrayLineRefused | edu/kit/kastel/monstercombat/model/ConfigurationLoader.java:82-88 | a line that opens neither an action nor a monster stops the load with a failure |
| EduConfig.ConfigureKeepsEarlier | edu/kit/kastel/monstercombat/model/ConfigurationLoader.java:67-90 | nothing read is taken back: the monsters read before a failure stay, in order, and every defined action name stays defined |
| EduConfig.ParseRepeatEffect | edu/kit/kastel/monstercombat/model/ConfigurationLoader.java:168-199 | the action gains the repeat RepeatLine reads, or the failure is returned, with the draws RepeatLine uses |
| EduConfig.StepAction | edu/kit/kastel/monstercombat/model/ConfigurationLoader.java:123-152 | one pass of the effect loop does what BodyStep says |
| EduConfig.ScanLine | edu/kit/kastel/monstercombat/model/ConfigurationLoader.java:123-152 | one pass of the effect loop is one step of ActionBody |
| EduConfig.ScanBody | edu/kit/kastel/monstercombat/model/ConfigurationLoader.java:120-155 | the effect loop computes ActionBody |
| EduConfig.ScanAction | edu/kit/kastel/monstercombat/model/ConfigurationLoader.java:101-155 | reading an action computes ActionBlock |
| EduConfig.ConfigurationLoader.constructor | edu/kit/kastel/monstercombat/model/ConfigurationLoader.java:24-28 | a new loader has no actions and no monsters |
| EduConfig.ConfigurationLoader.Load | edu/kit/kastel/monstercombat/model/ConfigurationLoader.java:37-59 | the previous data is cleared, then the kept lines are read as Configure says |
| EduConfig.ConfigurationLoader.ParseConfiguration | edu/kit/kastel/monstercombat/model/ConfigurationLoader.java:67-90 | the kept lines are read as Configure says, on top of what was loaded |
| EduConfig.ConfigurationLoader.ParseSection | edu/kit/kastel/monstercombat/model/ConfigurationLoader.java:79-89 | one pass of the section loop does what SectionStep says |
| EduConfig.ConfigurationLoader.ParseAction | edu/kit/kastel/monstercombat/model/ConfigurationLoader.java:101-155 | a block read is stored under its name, replacing an earlier one; a failure changes no action |
| EduConfig.ConfigurationLoader.ParseMonster | edu/kit/kastel/monstercombat/model/ConfigurationLoader.java:209-246 | a monster read is appended; a failure changes no monster |
| LegacyConditions.MessagesDistinguish | monstercombat/model/StatusCondition.java:7-59 | only NONE has an empty end or inflicted text and the active text "OK"; distinct conditions have distinct active and inflicted texts, and distinct end texts apart from NONE |
| LegacyConditions.Multiplier | monstercombat/model/Monster.java:119-126 | the status factor is 0.75 exactly for WET on DEF, BURN on ATK and QUICKSAND on SPD, and 1.0 otherwise |
| LegacyConditions.FromString | monstercombat/model/StatusCondition.java:67-74 | a representation that names a condition gives that condition; any other string gives NONE |
| LegacyConditions.FromStringName | monstercombat/model/StatusCondition.java:23-26 | printing a condition and parsing it back gives the same condition |
| LegacyEffect.BurnDamage | monstercombat/model/effect/EffectDamage.java:45-51 | the burn tick is a relative burn damage of 10% that always hits and is flagged for the target, not the user |
| LegacyEffect.ActualTarget | monstercombat/model/effect/EffectDamage.java:55 | an effect flagged for the user lands on the user, any other on the chosen target |
| LegacyEffect.FlattenAppend | monstercombat/model/Competition.java:373-384 | the queue of an action with one more effect is the old queue followed by that effect's expansion |
| LegacyEffect.FlattenOfShallow | monstercombat/model/Competition.java:373-384 | for an action without nested repeats the queue holds no repeat, and every entry is a top-level effect or an entry of one of its repeats |
| LegacyModel.Effective | monstercombat/model/Monster.java:112-130 | an effective stat is base x stage factor x the status condition's multiplier, raised to 1.0 when lower |
| LegacyModel.Action.constructor | monstercombat/model/Action.java:22-26 | a new action has its name and element and no effects |
| LegacyModel.Action.AddEffect | monstercombat/model/Action.java:51-53 | the effect is appended at the end |
| LegacyModel.Action.GetEffects | monstercombat/model/Action.java:60-62 | the effects, in order |
| LegacyModel.Action.FirstEffectHitRate | monstercombat/model/Action.java:69-74 | 0 for an action without effects, otherwise the first effect's hit rate (100 for a repeat) |
| LegacyModel.Monster.constructor | monstercombat/model/Monster.java:35-57 | a new monster has full HP, the given base stats with PRC and AGL at 1, every stage 0, condition NONE, no protection, no actions, and its name as display name |
| LegacyModel.Monster.SetDisplayName | monstercombat/model/Monster.java:82-84 | only the display name changes |
| LegacyModel.Monster.EffectiveStat | monstercombat/model/Monster.java:112-130 | the effective stat is base x stage factor x condition multiplier, raised to 1.0 when lower |
| LegacyModel.Monster.IsFainted | monstercombat/model/Monster.java:256-258 | the monster is fainted exactly when its HP is at most 0 |
| LegacyModel.Monster.SetStatusCondition | monstercombat/model/Monster.java:164-166 | only the condition changes |
| LegacyModel.Monster.ChangeStatBy | monstercombat/model/Monster.java:184-188 | the stage becomes the clamped sum, as Combatant.WithStage says, and nothing else changes |
| LegacyModel.Monster.AddAction | monstercombat/model/Monster.java:195-197 | the action is appended at the end and nothing else changes |
| LegacyModel.Monster.GetActions | monstercombat/model/Monster.java:204-206 | the actions, in insertion order |
| LegacyModel.Monster.GetAction | monstercombat/model/Monster.java:214-221 | the first action with that name, or null exactly when no action has it |
| LegacyModel.Monster.TakeDamage | monstercombat/model/Monster.java:229-236 | the state and the amount are those of Combatant.TakeDamage: nothing while protected, at most the current HP otherwise |
| LegacyModel.Monster.Heal | monstercombat/model/Monster.java:244-249 | the state and the amount are those of Combatant.Heal |
| LegacyModel.Monster.SetProtection | monstercombat/model/Monster.java:267-271 | the protection flags and count are overwritten and nothing else changes |
| LegacyModel.Monster.DecreaseProtection | monstercombat/model/Monster.java:296-307 | the state and the report are those of Combatant.DecreaseProtection |
| LegacyExecution.Aim | monstercombat/model/effect/EffectDamage.java:55 | an effect acts on the user or on the chosen target |
| LegacyExecution.DamageFactors | monstercombat/model/effect/EffectDamage.java:96-135 | the five damage multipliers are positive and look at the victim: its element against the action's, ATK over the victim's DEF, a critical 2.0 exactly when the critical draw hits 10 x SPD ratio, 1.5 exactly for a same-element action, a random factor in [0.85, 1.0) |
| LegacyExecution.DamageAmountBounds | monstercombat/model/effect/EffectDamage.java:64-71 | relative damage of 0 to 100 percent stays within the victim's maximum HP; base damage of a positive value is at least 1 and of 0 is 0 |
| LegacyExecution.DamageExec | monstercombat/model/effect/EffectDamage.java:54-86 | damage succeeds exactly when the victim has not fainted; the victim alone takes it (none while protected); only base damage uses two draws |
| LegacyExecution.HealAmount | monstercombat/model/effect/EffectHealing.java:45-54 | base healing is the value itself |
| LegacyExecution.HealExec | monstercombat/model/effect/EffectHealing.java:35-63 | healing succeeds exactly when the victim has not fainted, changes only the victim and never lifts it above its maximum |
| LegacyExecution.StatChangeExec | monstercombat/model/effect/EffectStatChange.java:30-54 | a stat change succeeds exactly when the victim has not fainted; a lowering flagged for the target on a stat-protected victim changes nothing; otherwise only the victim's stage changes |
| LegacyExecution.StatChangeCheckUsesFlag | monstercombat/model/effect/EffectStatChange.java:38-41 | the protection check reads the flag, not who is hit: a lowering flagged for the target that lands on its own protected user is blocked, one flagged for the user never is |
| LegacyExecution.InflictExec | monstercombat/model/effect/EffectStatusCondition.java:27-46 | inflicting succeeds exactly when the victim has not fainted, sets the condition only when the victim has none, and never replaces an existing one |
| LegacyExecution.DefenseExec | monstercombat/model/effect/EffectDefense.java:46-65 | defense succeeds exactly when the user has not fainted and protects the user, against exactly one of damage and stat changes, for the stored count |
| LegacyExecution.Apply | monstercombat/model/effect/Effect.java:37 | any effect changes at most the user and the target, uses at most two draws, changes nothing when it fails, and repeat and continue succeed without changing anything |
| LegacyExecution.CalculateBaseDamage | monstercombat/model/effect/EffectDamage.java:96-135 | base damage uses the critical draw and then the random draw and equals BaseDamage of the resulting factors |
| LegacyExecution.ExecuteDamage | monstercombat/model/effect/EffectDamage.java:54-86 | the roster and the draws end as DamageExec says |
| LegacyExecution.ExecuteHealing | monstercombat/model/effect/EffectHealing.java:35-63 | the roster ends as HealExec says |
| LegacyExecution.ExecuteStatChange | monstercombat/model/effect/EffectStatChange.java:30-54 | the roster ends as StatChangeExec says |
| LegacyExecution.ExecuteInflict | monstercombat/model/effect/EffectStatusCondition.java:27-46 | the roster ends as InflictExec says |
| LegacyExecution.ExecuteDefense | monstercombat/model/effect/EffectDefense.java:46-65 | the roster ends as DefenseExec says |
| LegacyExecution.Execute | monstercombat/model/effect/EffectRepeat.java:41-45 | the roster and the draws end as Apply says, for every kind of effect |
| LegacyBattle.HitChance | monstercombat/model/Competition.java:432-439 | an effect whose chosen target is the user keeps its hit rate; a non-negative hit rate gives a non-negative chance |
| LegacyBattle.TryEffect | monstercombat/model/Competition.java:432-449 | an effect takes effect only after a hit, a miss changes nothing and uses one draw, and a failed effect changes nothing |
| LegacyBattle.RunRest | monstercombat/model/Competition.java:396-399 | every entry after the first is tried once, whatever the others did |
| LegacyBattle.RunQueue | monstercombat/model/Competition.java:387-400 | an empty queue does nothing; the queue fails exactly when its first entry fails, and then changes nothing and uses one draw |
| LegacyBattle.EndOfTurn | monstercombat/model/Competition.java:402-420 | only the acting monster can change, and a monster without a condition or asleep is untouched and draws nothing |
| LegacyBattle.BurnTickThrows | monstercombat/model/Competition.java:410-413 | as written, a burn that the roll does not cure always throws a null-pointer failure; in every other case the written and the corrected end of turn agree |
| LegacyBattle.BurnTickThrowsExample | monstercombat/model/Competition.java:410-413 | a burning monster at 100 HP whose cure roll fails makes the end of turn throw |
| LegacyBattle.BurnTickDamages | monstercombat/model/Competition.java:402-420 | in the corrected end of turn a burning monster that is not cured loses a tenth of its maximum HP, rounded up and not below 0, or nothing while protected; nothing else about it changes |
| LegacyBattle.ActionSpec | monstercombat/model/Competition.java:355-421 | a sleeping monster only rolls to wake up; any other runs its queue and, unless the first entry failed, its end of turn |
| LegacyBattle.FailedActionSkipsStatus | monstercombat/model/Competition.java:387-394 | when the first queued effect misses, the turn changes nobody and uses one draw; a burning user keeps its burn and takes no tick |
| LegacyBattle.EmptyQueueGoesToStatus | monstercombat/model/Competition.java:387-403 | with an empty queue the action goes straight to the end-of-turn handling |
| LegacyBattle.BuildQueue | monstercombat/model/Competition.java:373-384 | the queue is every effect's expansion, in order |
| LegacyBattle.RollHit | monstercombat/model/Competition.java:441-442 | the hit roll uses one draw against the hit chance and changes no monster |
| LegacyBattle.TryExecute | monstercombat/model/Competition.java:432-449 | the roster and the draws end as TryEffect says |
| LegacyBattle.RunEffects | monstercombat/model/Competition.java:387-400 | the roster and the draws end as RunQueue says |
| LegacyBattle.ProcessStatus | monstercombat/model/Competition.java:402-420 | the roster and the draws end as the corrected EndOfTurn says |
| LegacyBattle.WakeRoll | monstercombat/model/Competition.java:357-367 | the sleeping branch ends as ActionSpec says |
| LegacyBattle.RunAction | monstercombat/model/Competition.java:369-420 | the waking branch ends as ActionSpec says |
| LegacyBattle.ExecuteAction | monstercombat/model/Competition.java:355-421 | the roster and the draws end as ActionSpec says |
| LegacyCompetition.SurvivorsExact | monstercombat/model/Competition.java:456-464 | the survivors are exactly the positions with HP above 0, in increasing order |
| LegacyCompetition.SoleSurvivor | monstercombat/model/Competition.java:467-471 | with exactly one survivor every other monster has fainted |
| LegacyCompetition.SpeedKeys | monstercombat/model/Competition.java:311-312 | the sort key of each monster is its effective speed |
| LegacyCompetition.Turn | monstercombat/model/Competition.java:314-337 | a fainted monster is skipped and a monster without an action passes, both changing nothing; a turn decides the contest exactly when the monster acted and at most one monster is left conscious |
| LegacyCompetition.NobodyActs | monstercombat/model/Competition.java:314-338 | when every remaining monster of the order has fainted or passes, the rest of the phase changes nothing and draws nothing |
| LegacyCompetition.PassingPhase | monstercombat/model/Competition.java:309-338 | without a current action, or with every monster fainted, the execute phase changes nothing and draws nothing |
| LegacyCompetition.EndRound | monstercombat/model/Competition.java:340-345 | every monster's protection counts down once, fainted monsters included, and nothing else changes |
| LegacyCompetition.EndRoundKeepsStanding | monstercombat/model/Competition.java:340-345 | the countdown never changes who is conscious or who survives |
| LegacyCompetition.ResetAll | monstercombat/model/Competition.java:485-497 | every monster is reset, one by one |
| LegacyCompetition.ResetRestores | monstercombat/model/Competition.java:485-497 | after a reset a monster with HP >= 0 is at full HP, has condition NONE and every stage other than HP at 0, and keeps its protection |
| LegacyCompetition.ResetMonster | monstercombat/model/Competition.java:488-496 | one monster's state becomes its reset state |
| LegacyCompetition.CountConscious | monstercombat/model/Competition.java:455-464 | the count is the number of survivors; with one survivor the last conscious monster is that one, with none it is null |
| LegacyCompetition.Competition.constructor | monstercombat/model/Competition.java:43-54 | a new competition has no monsters and no names, round 0, is not decided and has no winner or current references |
| LegacyCompetition.Competition.AddMonster | monstercombat/model/Competition.java:84-100 | the monster is appended; a new name is kept; a taken name becomes name#n with the smallest free n, never colliding with a name in use; the contest state and the current monster, action and target are unchanged |
| LegacyCompetition.Competition.CheckDecided | monstercombat/model/Competition.java:454-480 | with at most one monster conscious the contest is decided and that one, or nobody, wins; otherwise nothing changes |
| LegacyCompetition.Competition.ExecuteEffect | monstercombat/model/Competition.java:432-449 | the roster and the draws end as TryEffect says |
| LegacyCompetition.Competition.ExecuteAction | monstercombat/model/Competition.java:355-421 | the roster and the draws end as ActionSpec says |
| LegacyCompetition.Competition.TakeTurn | monstercombat/model/Competition.java:314-337 | one turn of the phase changes the roster and the draws as Turn says and reports whether it decided the contest; when it does, the winner is the one monster still conscious, or nobody, and otherwise the winner is unchanged |
| LegacyCompetition.Competition.ExecuteActionsPhase | monstercombat/model/Competition.java:309-338 | the roster, the draws and the decision end as ExecutePhase says; a decided contest is won by the one monster still conscious, or nobody; an open one keeps its winner |
| LegacyCompetition.Competition.RunTurns | monstercombat/model/Competition.java:314-337 | the turns in the speed order leave the roster, the draws and the decision as Turns says, stopping at the turn that decides; the winner is the one still conscious, or nobody, once decided |
| LegacyCompetition.Competition.DecreaseAllProtection | monstercombat/model/Competition.java:340-345 | the roster's states become EndRound of the old ones and nothing else changes |
| LegacyCompetition.Competition.Reset | monstercombat/model/Competition.java:485-503 | every monster is reset; round 0, not decided, no winner |
| LegacyCompetition.Competition.Clear | monstercombat/model/Competition.java:508-517 | no monsters, no names, no current references, round 0, not decided, no winner |
| LegacyCompetition.Competition.PlayRound | monstercombat/model/Competition.java:309-345 | the actions are executed as ExecutePhase says; the protection countdown follows only when that leaves the contest open; a decided contest is won by the one still conscious, or nobody; an open one keeps its winner |
| LegacyCompetition.Competition.RunRound | monstercombat/model/Competition.java:271-346 | the round counter goes up; a contest that is or becomes decided at the start stops there unchanged; otherwise the round runs as PlayRound says; whenever the contest is decided the winner is the sole survivor, or nobody, and otherwise it is unchanged |
| LegacyConfig.AmountLine | monstercombat/model/ConfigurationLoader.java:223-251 | a damage or heal line with fewer than four tokens is refused; an accepted one has at least five tokens, aims at the user exactly when token 1 is "user", and takes its mode from token 2, its value from token 3 and its hit rate from token 4 |
| LegacyConfig.ParseStatusConditionEffect | monstercombat/model/ConfigurationLoader.java:260-275 | fewer than four tokens is refused; an accepted line inflicts the condition named by token 2, never NONE, on the user exactly when token 1 is "user" |
| LegacyConfig.ParseStatChangeEffect | monstercombat/model/ConfigurationLoader.java:284-300 | fewer than five tokens is refused; an accepted line changes the stat named by token 2 by the stages of token 3 with the hit rate of token 4 |
| LegacyConfig.ParseGuard | monstercombat/model/ConfigurationLoader.java:314-322 | "health" protects health, "stats" protects the stats, and no other word is a protection target |
| LegacyConfig.ParseDefenseEffect | monstercombat/model/ConfigurationLoader.java:309-341 | fewer than four tokens is refused; token 3 must be a number; the random form needs six tokens and draws once, a count between its bounds; the fixed form draws nothing |
| LegacyConfig.ParseContinueEffect | monstercombat/model/ConfigurationLoader.java:387-395 | fewer than two tokens is refused; an accepted line continues with the hit rate of token 1 |
| LegacyConfig.ParseEffect | monstercombat/model/ConfigurationLoader.java:196-214 | a line of fewer than two tokens or with an unknown keyword is refused; only a random defense draws; an effect line never yields a repeat or a burn tick |
| LegacyConfig.TargetWordLenient | monstercombat/model/ConfigurationLoader.java:228 | every target word other than "user" parses exactly as "target" in damage, heal, status and stat lines: no target word is refused |
| LegacyConfig.FourTokenAmountLine | monstercombat/model/ConfigurationLoader.java:224-248 | a damage or heal line of exactly four well-formed tokens passes the length check and fails reading the absent hit rate |
| LegacyConfig.DefenseHitRateFirst | monstercombat/model/ConfigurationLoader.java:324-337 | a defense line whose token 3 is not a number fails with a number-format error whatever its form, without drawing |
| LegacyConfig.SplitRender | monstercombat/model/ConfigurationLoader.java:197 | the line written for a describable effect splits back into its tokens |
| LegacyConfig.ParseRender | monstercombat/model/ConfigurationLoader.java:196-395 | every effect a fixed-count line can describe is parsed back from its own line, without a draw |
| LegacyConfig.AmountWords | monstercombat/model/ConfigurationLoader.java:223-251 | the target, mode, value and hit rate written into a damage or heal line are read back unchanged |
| LegacyConfig.RepeatLine | monstercombat/model/ConfigurationLoader.java:145-171 | a repeat line yields a repeat with an empty list; fewer than two tokens is refused; only the random form draws |
| LegacyConfig.AddToOpenRepeat | monstercombat/model/ConfigurationLoader.java:176-177 | the effect joins the list of the last repeat of the action; the effects before it and the repeat's count are unchanged |
| LegacyConfig.AddToOpenRepeatShallow | monstercombat/model/ConfigurationLoader.java:174-180 | adding an effect that is no repeat to an open repeat leaves no repeat nested in a repeat, and the action still ends in that repeat |
| LegacyConfig.AppendShallow | monstercombat/model/ConfigurationLoader.java:162-179 | appending an effect that is no repeat, or a repeat with an empty list, leaves no repeat nested in a repeat |
| LegacyConfig.BodyStep | monstercombat/model/ConfigurationLoader.java:130-183 | the block finishes exactly at "end action" with the action unchanged; otherwise the name and element stay and an open repeat remains the last effect; draws only move forward |
| LegacyConfig.BodyStepShallow | monstercombat/model/ConfigurationLoader.java:130-183 | one body line keeps the action under construction free of nested repeats, with an open repeat as its last effect |
| LegacyConfig.ActionBody | monstercombat/model/ConfigurationLoader.java:130-186 | a finished block ends past its start and within the lines and keeps the header's name and element; running out of lines is refused |
| LegacyConfig.ActionBodyEndsAtEnd | monstercombat/model/ConfigurationLoader.java:133-136 | a block read by the effect loop ends just after its "end action" line |
| LegacyConfig.ActionBlock | monstercombat/model/ConfigurationLoader.java:108-187 | a finished action is named by header token 1 and has the element named by header token 2, the header split into at most three parts |
| LegacyConfig.ActionBodyShallow | monstercombat/model/ConfigurationLoader.java:130-186 | the action the effect loop finishes has no repeat nested in a repeat |
| LegacyConfig.ActionBlockShallow | monstercombat/model/ConfigurationLoader.java:108-187 | every action block read has no repeat nested in a repeat |
| LegacyConfig.EndRepeatNeedsRepeat | monstercombat/model/ConfigurationLoader.java:137-144 | "end repeat" without an open repeat is refused; with one open it closes it and changes nothing else |
| LegacyConfig.OpenRepeatCollects | monstercombat/model/ConfigurationLoader.java:172-182 | an effect line read while a repeat is open goes into that repeat's list; earlier effects and the count stay, and the repeat stays open |
| LegacyConfig.DirectEffectAppended | monstercombat/model/ConfigurationLoader.java:172-182 | with no repeat open, an effect line is appended to the action's own effects |
| LegacyConfig.RepeatAddedAtOnce | monstercombat/model/ConfigurationLoader.java:145-171 | a repeat line adds a repeat with an empty list to the action at once and opens it, even while another is open |
| LegacyConfig.SectionStep | monstercombat/model/ConfigurationLoader.java:87-97 | a successful section moves the index forward within the lines; a failure leaves actions and monsters alone; no stored action is lost; at most one monster is appended |
| LegacyConfig.ConfigureStoresShallow | monstercombat/model/ConfigurationLoader.java:74-98 | every action the loader holds, after success or failure, is stored under its own name and has no repeat nested in a repeat |
| LegacyConfig.StrayLineRefused | monstercombat/model/ConfigurationLoader.java:94-96 | a kept line that opens neither an action nor a monster stops the load with the data read so far |
| LegacyConfig.ParseDefenseLine | monstercombat/model/ConfigurationLoader.java:309-341 | returns what ParseDefenseEffect describes and consumes its draws |
| LegacyConfig.ParseEffectLine | monstercombat/model/ConfigurationLoader.java:196-214 | returns what ParseEffect describes and consumes its draws |
| LegacyConfig.ParseRepeatLine | monstercombat/model/ConfigurationLoader.java:145-171 | returns what RepeatLine describes and consumes its draws |
| LegacyConfig.StepAction | monstercombat/model/ConfigurationLoader.java:131-183 | takes the step BodyStep describes and consumes its draws |
| LegacyConfig.ScanLine | monstercombat/model/ConfigurationLoader.java:131-183 | the step taken is the first step of ActionBody: finish, fail, or continue from the next line |
| LegacyConfig.ScanBody | monstercombat/model/ConfigurationLoader.java:130-186 | returns the block ActionBody describes and consumes its draws |
| LegacyConfig.ScanAction | monstercombat/model/ConfigurationLoader.java:108-187 | returns the block ActionBlock describes and consumes its draws |
| LegacyConfig.ConfigurationLoader.constructor | monstercombat/model/ConfigurationLoader.java:32-35 | no actions and no monsters |
| LegacyConfig.ConfigurationLoader.Load | monstercombat/model/ConfigurationLoader.java:44-66 | the previous data is cleared and the kept lines are parsed as Configure describes, with the failure that stopped it |
| LegacyConfig.ConfigurationLoader.ParseConfiguration | monstercombat/model/ConfigurationLoader.java:74-98 | the trimmed non-empty lines are parsed on top of the current data as Configure describes |
| LegacyConfig.ConfigurationLoader.ParseSection | monstercombat/model/ConfigurationLoader.java:87-97 | one section is read as SectionStep describes |
| LegacyConfig.ConfigurationLoader.ParseAction | monstercombat/model/ConfigurationLoader.java:108-187 | a finished action is stored under its name, replacing any earlier one, and the index after its block returned; on failure the actions are unchanged |
| LegacyConfig.ConfigurationLoader.ParseMonster | monstercombat/model/ConfigurationLoader.java:405-442 | the monster MonsterLine reads is appended, or its failure reported with the monsters unchanged |

## Left out

- Reading the configuration file (`loadConfiguration`'s `Files.readAllLines` and the echoed text). The loaders start from the sequence of lines.
- All console output: battle messages, `getHealthBar`, `toString` and the `show` commands. These are presentation only.
- The command-line interface, the command handlers and the user interface loop. They dispatch input and print.
- Choosing an action and a target (the phase in which the user types a command, and its `Thread.sleep` wait). These are concurrency and input handling; a round takes the chosen action and target as inputs.
- A round whose target is null. The command layer always supplies a roster monster, so the target is taken to be a roster position.
- The debug mode that reads random outcomes from standard input.
- `java.util.Random` itself. Its `nextDouble` sequence is the draw oracle, and `nextInt(n)` is modelled as `floor(draw × n)`.
- IEEE-754 double rounding in the damage, healing and hit-chance formulas. They are computed on exact reals.
- 32-bit wrap-around of `int` arithmetic. Integers are unbounded; only `Integer.parseInt`'s range check is modelled.
- The `Competition.getInstance` singleton and its `IllegalStateException`. The competition, and its random source, are passed explicitly.
- Object identity of actions and effects. Actions and effects are values. A monster, the loader's map and a repeat therefore cannot share one action or list object, and the legacy loader's shared repeat list becomes an update of the repeat that was added last.
- A roster that holds the same monster twice. Roster entries are taken to be distinct objects.
- `isDamageEffect`, `getDamageTypeCode` and `getValue` on effects. Only the `show` commands use them.
- Getters that only return a field (`getName`, `getElement`, `getActionCount` and the like).
- Exception classes and exception messages. A failure is one `Failure` value per kind of exception.
- EduBattle.HitChance: states only that an effect aimed at the user keeps its hit rate and that the chance is not negative. The `hitRate × PRC / AGL` formula is the function itself and is not restated.
- LegacyBattle.HitChance: states only that an effect whose chosen target is the user keeps its hit rate and that the chance is not negative. The `hitRate × PRC / AGL` formula is the function itself and is not restated.
- Randomness.RandomInt: does not model the 32-bit overflow of `max - min + 1` for extreme bounds.
- Text.ParseInt: accepts only the ASCII digits 0-9. Java's `Integer.parseInt` also accepts the other Unicode decimal digits (through `Character.digit`); the model refuses those as a number-format failure.

## Findings

| source | as written | input that shows it | evidently intended | confidence | as-written member | corrected member |
|---|---|---|---|---|---|---|
| edu/kit/kastel/monstercombat/model/BattleManager.java:90-93 | the burn tick runs `burnDamage.execute(monster, null)`, and `execute` first asks the null target whether it is defeated | a burning monster at 100 of 100 HP whose 33.33% cure roll fails (draw 0.9) | the burning monster loses ceil(maxHp / 10) HP, unless it is health-protected (proved in EduBattle.BurnTickDamages) | not executed | EduBattle.BurnTickThrows | EduBattle.EndOfTurn |
| monstercombat/model/Competition.java:410-413 | the burn tick runs `burnDamage.execute(user, null, false)`; the burn damage is aimed at the target, so `actualTarget` is null and `actualTarget.isFainted()` is called on it | a burning monster at 100 of 100 HP whose 33.33% cure roll fails (draw 0.9) | the burning monster loses ceil(maxHp / 10) HP, unless it is health-protected (proved in LegacyBattle.BurnTickDamages) | not executed | LegacyBattle.BurnTickThrows | LegacyBattle.EndOfTurn |
