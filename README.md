# Threads of Time: a verified model of the battle rules

Threads of Time is a turn-based role-playing game built on Unity. Under its
engine wiring sits a sequential rule set, and this project models that rule
set in Dafny and proves properties of the model:

- the serialisable tables and ranges that hold every damage, multiplier and
  condition value;
- the damage pipeline of one attack, from the attacker's and the defender's
  modifier components to the final calculation and the change to the
  defender's health;
- the battle loop: setup, turn order, the turns of players and enemies, the
  pruning of the rosters and the end check;
- hero progression, the party and the battle setup payload;
- the narrative trigger store;
- three small state machines: sprite-sheet playback with its fallback
  search, the camera registry and the backdrop selector.

## How the model reads the game

- Each C# class whose fields the game updates in place is a Dafny `class`
  with those fields. Its methods are proved against specification functions
  of the old fields, and lemmas prove the properties of those functions.
  Pure code (the range operators, the damage calculation, the playback type
  switch) is made of datatypes and functions.
- A `float` is a `real`, and float rounding is not modelled. A C# `int` is
  an `int`, except where overflow matters: `IntRange` wraps at 32 bits as
  unchecked C# does, and C#'s truncating integer `/` and `%` are `CsMath`.
- Every `UnityEngine.Random.value` and every `Random.Range` roll is read
  from an injected stream `draws: nat -> real`. Each calculation takes the
  position of its first roll and returns the position after its last.
  `Random.Range` over a list index is the parameter `pick`.
- An `AnimationCurve` is an arrow-typed field about which the model assumes
  nothing.
- Raising an event is a direct call of its listeners in subscription order.
  The battle's raised events go to an append-only log, `notices`.
- An actor's identity, which the source compares against `gameObject`, is an
  integer id.
- The `BattleLoop` coroutine is an explicit program counter `pc`, and
  `Step` runs it to its next point. Only the wait for the player's action
  (`AwaitingAction`) can stand still. Waiting for seconds or for a frame is
  not observable and becomes nothing. An exception inside the coroutine ends
  it for good (`Faulted`).
- Exceptions elsewhere are modelled as results: a `Result`, an `Option`, or
  a `thrown` flag after which nothing more happens.
- One `BattleActor` class stands for heroes and enemies, told apart by
  `isPlayerControlled`. A hero's liveness is its `_isAlive` flag. Only the
  death event clears that flag, and no code raises the death event. An
  enemy's liveness is its health.
- Behaviours of the code as written are kept and stated as lemmas:
  - the table indexer reads the first occurrence of a key, while
    `ToDictionary` keeps the last;
  - damage is not clamped, and can be negative;
  - `TakeDamage` with negative damage raises health past the maximum;
  - staged conditions are never applied;
  - the hero constructor evaluates its loop at the unchanged starting level;
  - `Run` announces a loss, but the outer battle loop goes on while neither
    side is defeated;
  - heroes are never pruned from the player list, so a battle with a hero
    on the list is never lost;
  - `Play` rewrites the fallback table that all characters share
    (`Sprites.FallbackTableLeaks`).

## Model

| member | source | states |
|---|---|---|
| Tables.IndexOf | Assets/Scripts/Utility/SerializableDictionary.cs:63 | `List.IndexOf`: -1 exactly when the key is absent, otherwise the first position holding it |
| Tables.LastIndexOf | Assets/Scripts/Utility/SerializableDictionary.cs:45-49 | -1 exactly when the key is absent, otherwise the last position holding it (the slot `ToDictionary` keeps) |
| Tables.IndexOfAppend | Assets/Scripts/Utility/SerializableDictionary.cs:72-83 | appending a missing key makes `IndexOf` find it at the old length; present keys keep their position |
| Tables.AssignThenLookup | Assets/Scripts/Utility/SerializableDictionary.cs:59-84 | after `d[k] = v` the lists stay aligned, `d[k]` reads `v` and every other key reads as before |
| Tables.AssignShape | Assets/Scripts/Utility/SerializableDictionary.cs:70-84 | setting an existing key keeps the keys list and count, writes the value slot of the key's first occurrence and keeps every other slot, a later occurrence of the same key included; setting a new key appends one pair at the end |
| Tables.IndexOfAfterCut | Assets/Scripts/Utility/SerializableDictionary.cs:127-131 | cutting out a position holding another key shifts `IndexOf` of a key down by one when it lay after the cut, and keeps it otherwise |
| Tables.DeleteEffect | Assets/Scripts/Utility/SerializableDictionary.cs:125-133 | `Remove` keeps the lists aligned and is a no-op for an absent key; for a present key it removes exactly one occurrence from the keys, and from the values the slot the indexer read for that key |
| Tables.DeleteThenLookup | Assets/Scripts/Utility/SerializableDictionary.cs:125-133 | after `Remove(k)` the indexer reads `k` as the pairs after its first occurrence would: the value of its next occurrence, or nothing when the key occurred once |
| Tables.LookupAfterCut | Assets/Scripts/Utility/SerializableDictionary.cs:127-131 | removing the slot of one key leaves the lookup of every other key unchanged |
| Tables.DeleteOther | Assets/Scripts/Utility/SerializableDictionary.cs:125-133 | `Remove(k)` leaves every other key reading as before |
| Tables.PairsToMapLastWins | Assets/Scripts/Utility/SerializableDictionary.cs:43-50 | filling a dictionary pair by pair holds exactly the keys seen, each with the value of its last pair |
| Tables.ToMapLastWins | Assets/Scripts/Utility/SerializableDictionary.cs:41-51 | `ToDictionary` holds exactly the listed keys and resolves a duplicated key to its last value |
| Tables.FirstAndLastOccurrenceDisagree | Assets/Scripts/Utility/SerializableDictionary.cs:41-69 | on keys `[1, 1]` with values `[10, 20]` the indexer reads 10 while `ToDictionary` maps 1 to 20 |
| Tables.SerializableDictionary.constructor | Assets/Scripts/Utility/SerializableDictionary.cs:23-33 | null gives empty lists; otherwise both lists hold the initial pairs in enumeration order |
| Tables.SerializableDictionary.IndexOfKey | Assets/Scripts/Utility/SerializableDictionary.cs:63 | the forward scan returns `IndexOf(keys, k)` |
| Tables.SerializableDictionary.GetItem | Assets/Scripts/Utility/SerializableDictionary.cs:61-69 | fails (the "invalid accessor" exception) exactly when the key is not found within the values list; otherwise returns the first occurrence's value |
| Tables.SerializableDictionary.SetItem | Assets/Scripts/Utility/SerializableDictionary.cs:70-84 | the new lists are `Assign` of the old ones, whose shape `AssignShape` and `AssignThenLookup` state |
| Tables.SerializableDictionary.SetValue | Assets/Scripts/Utility/SerializableDictionary.cs:92-97 | exactly the same new state as the indexer's setter |
| Tables.SerializableDictionary.TryGetValue | Assets/Scripts/Utility/SerializableDictionary.cs:108-119 | `Some(v)` (true, v) exactly when the indexer would find the key, `None` (false, default) otherwise; the lists are unchanged |
| Tables.SerializableDictionary.Remove | Assets/Scripts/Utility/SerializableDictionary.cs:125-133 | the new lists are `Delete` of the old ones (see `DeleteEffect`, `DeleteOther`) |
| Tables.SerializableDictionary.Count | Assets/Scripts/Utility/SerializableDictionary.cs:138 | with aligned lists, the number of pairs enumerated |
| Tables.SerializableDictionary.ToDictionary | Assets/Scripts/Utility/SerializableDictionary.cs:41-51 | the index loop yields `ToMap` of the lists, which `ToMapLastWins` characterises |
| Tables.SerializableDictionary.GetEnumerator | Assets/Scripts/Utility/SerializableDictionary.cs:153-159 | yields the pairs in list order, up to the shorter list's length |
| Ranges.FloatShift | Assets/Scripts/Utility/SerializableFloatRange.cs:27-53 | `r + v` and `r - v` move both ends by `v`; `(r + v) - v == r` and `(r - v) + v == r`; the width and the ordering are kept; `v + r == r + v` |
| Ranges.FloatPlusAlgebra | Assets/Scripts/Utility/SerializableFloatRange.cs:61-65 | range addition is commutative and associative, with `(0, 0)` as its identity |
| Ranges.FloatPlusOrdered | Assets/Scripts/Utility/SerializableFloatRange.cs:61-65 | the width of `r1 + r2` is the sum of the widths; two ordered ranges add to an ordered range |
| Ranges.Wrap | Assets/Scripts/Utility/SerializableIntRange.cs:29 | the unchecked 32-bit result of an `int` addition always lies in the `int` range |
| Ranges.WrapFits | Assets/Scripts/Utility/SerializableIntRange.cs:29 | a sum that fits in 32 bits is its own 32-bit result |
| Ranges.WrapDiffers | Assets/Scripts/Utility/SerializableIntRange.cs:29 | the 32-bit result differs from the exact sum by a multiple of 2^32 |
| Ranges.WrapShiftBack | Assets/Scripts/Utility/SerializableIntRange.cs:27-41 | adding then subtracting the same `int`, or the reverse, returns the original value even across overflow |
| Ranges.WrapAssociative | Assets/Scripts/Utility/SerializableIntRange.cs:61-65 | wrapped addition is associative |
| Ranges.IntPlusValue | Assets/Scripts/Utility/SerializableIntRange.cs:27-30 | `range + value` always yields two 32-bit ends, whatever the operands |
| Ranges.IntMinusValue | Assets/Scripts/Utility/SerializableIntRange.cs:38-41 | `range - value` always yields two 32-bit ends |
| Ranges.IntValuePlus | Assets/Scripts/Utility/SerializableIntRange.cs:49-53 | `value + range` always yields two 32-bit ends; `Ranges.IntShiftRoundTrip` shows it equals `range + value` |
| Ranges.IntPlus | Assets/Scripts/Utility/SerializableIntRange.cs:61-65 | `range1 + range2` always yields two 32-bit ends |
| Ranges.IntShiftRoundTrip | Assets/Scripts/Utility/SerializableIntRange.cs:27-53 | `(r + v) - v == r` and `(r - v) + v == r` for every 32-bit range and value; `v + r == r + v` |
| Ranges.IntShiftWidth | Assets/Scripts/Utility/SerializableIntRange.cs:27-30 | a shift that does not overflow keeps the width `max - min` |
| Ranges.IntShiftOverflowInverts | Assets/Scripts/Utility/SerializableIntRange.cs:27-30 | a forward shift that overflows only the top end wraps that end to `max + v - 2^32`, below the new bottom end: the range comes out inverted, as `(0, int.MaxValue) + 1 == (1, int.MinValue)` |
| Ranges.IntPlusAlgebra | Assets/Scripts/Utility/SerializableIntRange.cs:61-65 | componentwise range addition is commutative and associative under 32-bit wrap-around |
| Conditions.HasDuration.constructor | Assets/Scripts/Configs/ConditionDictionaries.cs:16-19 | a new counter holds the given number of turns |
| Conditions.HasDuration.TickTurn | Assets/Scripts/Configs/ConditionDictionaries.cs:21-24 | turns drop by exactly one, with no lower bound |
| Conditions.HasDuration.AddTurns | Assets/Scripts/Configs/ConditionDictionaries.cs:26-29 | turns grow by exactly `n` |
| Conditions.AddTurnsTwice | Assets/Scripts/Configs/ConditionDictionaries.cs:26-29 | `AddTurns(a); AddTurns(b)` has the effect of `AddTurns(a + b)` |
| Conditions.ConditionStats.constructor | Assets/Scripts/Configs/ConditionDictionaries.cs:39-42 | holds the given turns and chance |
| Conditions.ConditionStats.TickTurn | Assets/Scripts/Configs/ConditionDictionaries.cs:44-45 | the hiding `new TickTurn` changes nothing |
| Conditions.ConditionStats.TickTurnAsDuration | Assets/Scripts/Configs/ConditionDictionaries.cs:21-24 | through a `HasDuration` reference the base method still takes one turn off, and the chance is kept |
| Conditions.ConditionStats.AddTurns | Assets/Scripts/Configs/ConditionDictionaries.cs:26-29 | turns grow by `n`; the chance is kept |
| Conditions.ConditionStats.SetChance | Assets/Scripts/Configs/ConditionDictionaries.cs:37 | the `Chance` getter afterwards returns the value set; turns are kept |
| Conditions.ActiveCondition.constructor | Assets/Scripts/Configs/ConditionDictionaries.cs:54-57 | holds the given turns and damage; the damage is a constant no member changes |
| Conditions.ActiveCondition.TickTurn | Assets/Scripts/Configs/ConditionDictionaries.cs:21-24 | the inherited tick takes one turn off |
| Conditions.ActiveCondition.AddTurns | Assets/Scripts/Configs/ConditionDictionaries.cs:26-29 | the inherited add grows turns by `n` |
| Modifiers.Offense | Assets/Scripts/Combat/Attack.cs:46-84 | the offensive merge adds this component's crit bonus, overall modifier and overall multiplier once each and leaves the dodge, base crit, resistance-side fields, conditions and name untouched |
| Modifiers.Defense | Assets/Scripts/Combat/Resistance.cs:57-83 | the defensive merge adds this component's dodge, overall resistance value and multiplier once each and leaves the damage ranges, crit fields, attacker-side overall fields, conditions and name untouched |
| Modifiers.OffenseEffect | Assets/Scripts/Combat/Attack.cs:58-81 | per damage type: the flat table gains the type exactly when it was present or mentioned and reads old (missing = 0) plus the sum of the flat entries; the multiplier table reads old (missing = 1) plus the sum of the multiplier entries, so a missing one starts at `1 + m` |
| Modifiers.OffenseRangeEffect | Assets/Scripts/Combat/Attack.cs:46-57 | a type that was present or mentioned ends with the old range (missing = (0, 0)) plus the sum of the modifier ranges, added componentwise; any other type is untouched |
| Modifiers.DefenseEffect | Assets/Scripts/Combat/Resistance.cs:57-80 | per damage type: flat reads old minus the sum of the resistances (a missing one starts at `-r`); the multiplier reads old (missing = 1) minus the sum (a missing one starts at `1 - r`) |
| Modifiers.MergeRanges | Assets/Scripts/Combat/Attack.cs:46-57 | the `foreach` over the range table computes the fold whose effect `OffenseRangeEffect` states |
| Modifiers.MergeValues | Assets/Scripts/Combat/Attack.cs:58-81 | the `foreach` over a flat or multiplier table (adding, or subtracting as in Resistance.cs:57-80) computes the fold whose effect `OffenseEffect` and `DefenseEffect` state |
| Modifiers.Attack.constructor | Assets/Scripts/Combat/Attack.cs:17-22 | a component holding the prefab's three tables and its overall modifier, overall multiplier and crit bonus, whatever the inspector set them to (declared initial values 1, 0.1 and 0.05) |
| Modifiers.Attack.ApplyOffensiveMods | Assets/Scripts/Combat/Attack.cs:40-86 | when the context's attacker is this actor the definition becomes the offensive merge of the old one; otherwise it is untouched; the context's results are never touched |
| Modifiers.Resistance.constructor | Assets/Scripts/Combat/Resistance.cs:18-23 | a component holding the prefab's two tables and its overall value, overall multiplier and dodge modifier, whatever the inspector set them to (declared initial values 1, 0.1 and 0.05), not yet initialized |
| Modifiers.Resistance.Initialize | Assets/Scripts/Combat/Resistance.cs:25-33 | the first call installs both tables; every later call keeps the tables it found |
| Modifiers.Resistance.ApplyDefensiveMods | Assets/Scripts/Combat/Resistance.cs:51-85 | when the context's defender is this actor the definition becomes the defensive merge of the old one; otherwise it is untouched |
| Damage.DamageTypesOnce | Assets/Scripts/Combat/CombatCalculationContext.cs:17-27 | the fixed order PHYSICAL..STRUE lists every damage type exactly once |
| Damage.SumForUnmentioned | Assets/Scripts/Combat/Attack.cs:58-69 | a modifier table that never mentions a type contributes 0 to it |
| Damage.MentionsPrefix | Assets/Scripts/Combat/Attack.cs:58-69 | a table mentions a type exactly when its prefix or its last entry does |
| Damage.BumpLookup | Assets/Scripts/Combat/Attack.cs:61-68 | one `Contains ? += : =` step keeps the table aligned, adds the key, and makes it read old (or the start value when missing) plus the delta; other keys read as before |
| Damage.FoldBumpShape | Assets/Scripts/Combat/Attack.cs:58-81 | a merge keeps the table aligned and ends with exactly the old keys plus the mentioned ones |
| Damage.FoldBumpValue | Assets/Scripts/Combat/Attack.cs:58-81 | a merge makes every type read its old value (or the start value) plus, or minus, the sum of its entries |
| Damage.LookupByKey | Assets/Scripts/Combat/CombatCalculationContext.cs:66-70 | on an aligned table `Keys.Contains(k) ? d[k] : default` agrees with the indexer lookup |
| Damage.FoldBumpLookup | Assets/Scripts/Combat/Attack.cs:58-81 | after a merge a type that was present or mentioned reads old (or the start value) plus, or minus, its sum; any other type reads as before |
| Damage.RangeSumForUnmentioned | Assets/Scripts/Combat/Attack.cs:46-57 | a range table that never mentions a type contributes (0, 0) to it |
| Damage.BumpRangeLookup | Assets/Scripts/Combat/Attack.cs:49-56 | one range step adds the modifier range componentwise, or inserts it as-is when the type was missing |
| Damage.FoldRangesLookup | Assets/Scripts/Combat/Attack.cs:46-57 | after the range merge a present or mentioned type holds the old range plus the sum of its modifier ranges; others are untouched |
| Damage.Calculate | Assets/Scripts/Combat/CombatCalculationContext.cs:50-119 | a roll below the dodge chance is a miss, which leaves every value as it was after one roll; on a hit the critical flag is exactly `toHit >= 1 - (baseCrit + critBonus)` and the damage is a whole number |
| Damage.DamageSumClosedForm | Assets/Scripts/Combat/CombatCalculationContext.cs:63-89 | the per-type loop adds the plain sum of `(base + roll) * multiplier` over the types, and takes exactly one roll per ranged type, in type order |
| Damage.TypeStepTerm | Assets/Scripts/Combat/CombatCalculationContext.cs:65-88 | one pass adds the type's term (a missing base is 0, a missing multiplier and STRUE use 1) and takes a roll exactly when the type has a range; a skipped type's term is zero anyway |
| Damage.NoDamageEntries | Assets/Scripts/Combat/CombatCalculationContext.cs:72-79 | a definition without ranges or base damages adds nothing and takes no roll |
| Damage.FreshHitDamage | Assets/Scripts/Combat/CombatCalculationContext.cs:60-99 | on a hit, a fresh context's damage is `floor((S * (crit ? 1.5 : 1) + (oDMod - oRMod)) * max(oDMult - oRMult, 0))`, with `S` the plain term sum whose rolls follow the to-hit roll |
| Damage.FreshMiss | Assets/Scripts/Combat/CombatCalculationContext.cs:52-59 | a miss leaves a fresh context with damage 0, no critical hit and nothing staged |
| Damage.DamageCanBeNegative | Assets/Scripts/Combat/CombatCalculationContext.cs:95-99 | a hit without damage entries against a flat resistance of 3 over a bonus of 1 deals -2: the result is not clamped at zero |
| Damage.StageStepRolls | Assets/Scripts/Combat/CombatCalculationContext.cs:104-117 | one condition pass takes a roll exactly when its chance is non-negative, and never stages a key twice |
| Damage.StageStepKey | Assets/Scripts/Combat/CombatCalculationContext.cs:104-117 | one condition pass keeps what was staged, and stages its key, with the definition's stats, exactly when the chance is non-negative, the roll is at most the chance and the key was not staged yet |
| Damage.StageRolls | Assets/Scripts/Combat/CombatCalculationContext.cs:102-118 | the condition loop takes one roll per key with a non-negative chance, after the damage rolls, and stages each key at most once |
| Damage.KeepsAndDrawsStep | Assets/Scripts/Combat/CombatCalculationContext.cs:102-118 | the loop invariant "earlier stagings kept; new ones come from visited keys with the definition's stats" survives one more pass |
| Damage.StageKey | Assets/Scripts/Combat/CombatCalculationContext.cs:102-118 | the condition loop keeps every earlier staging and stages only the definition's keys, each with the definition's stats |
| Damage.StageIff | Assets/Scripts/Combat/CombatCalculationContext.cs:102-118 | a key not staged before is staged exactly when one of its occurrences has a non-negative chance and the roll drawn for it is at most that chance |
| CalculationContext.CombatCalculationContext.constructor | Assets/Scripts/Combat/CombatCalculationContext.cs:38-44 | a fresh context holds the attacker, defender and definition given, damage 0, no critical hit and no staged condition |
| CalculationContext.CombatCalculationContext.CalculateFinalValues | Assets/Scripts/Combat/CombatCalculationContext.cs:50-119 | the new values and the next roll position are `Calculate` of the old values (see `Damage.Calculate`, `FreshHitDamage`, `StageIff`); the definition is untouched |
| CalculationContext.CombatCalculationContext.SumDamageTypes | Assets/Scripts/Combat/CombatCalculationContext.cs:63-89 | the `foreach` over the damage types accumulates `DamageSum` (closed form in `DamageSumClosedForm`) and changes nothing else |
| CalculationContext.CombatCalculationContext.AddTypeDamage | Assets/Scripts/Combat/CombatCalculationContext.cs:65-88 | one loop body: the damage and roll position advance as `TypeStep` says (see `TypeStepTerm`) |
| CalculationContext.CombatCalculationContext.StageConditions | Assets/Scripts/Combat/CombatCalculationContext.cs:102-118 | the condition loop stages as `Stage` says (see `StageIff`, `StageKey`, `StageRolls`) and changes nothing else |
| Combat.OffenseAllShape | Assets/Scripts/Combat/Attack.cs:40-86 | after the attack event every table is still aligned and the dodge, base crit, resistance-side fields and conditions are untouched |
| Combat.DefenseAllShape | Assets/Scripts/Combat/Resistance.cs:51-85 | after the defend event every table is still aligned and the damage ranges, crit fields, attacker-side overall fields and conditions are untouched |
| Combat.UninvolvedListeners | Assets/Scripts/Combat/CombatManager.cs:37-38 | listeners owned by neither the attacker nor the defender leave the definition unchanged |
| Combat.NoOwnOffense | Assets/Scripts/Combat/Attack.cs:43 | attack listeners of other actors leave the definition unchanged |
| Combat.NoOwnDefense | Assets/Scripts/Combat/Resistance.cs:54 | defend listeners of other actors leave the definition unchanged |
| Combat.RaiseAttackEvent | Assets/Scripts/Combat/CombatManager.cs:37 | every subscribed Attack applies its merge in subscription order; the calculated values are untouched |
| Combat.RaiseDefendEvent | Assets/Scripts/Combat/CombatManager.cs:38 | every subscribed Resistance applies its merge in subscription order; the calculated values are untouched |
| Combat.PerformAttack | Assets/Scripts/Combat/CombatManager.cs:28-83 | a new context over a copy of the template (which is never changed) sees the attack listeners, then the defend listeners, then the calculation; the defender's health then takes the final damage even when it is zero or negative, and its maximum is unchanged |
| Combat.AttackDamage | Assets/Scripts/Combat/CombatManager.cs:28-41 | the damage one attack deals is a whole number, and 0 after a single roll when the to-hit roll is below the resolved dodge chance |
| HealthComponent.Damaged | Assets/Scripts/Combat/Health.cs:48-51 | health after damage is never below zero; it is the plain difference, or 0 exactly when the damage reaches the current health; it stays positive exactly when the damage is below the current health |
| HealthComponent.Healed | Assets/Scripts/Combat/Health.cs:106-109 | health after healing is never above the maximum; it is the plain sum, or the maximum when the sum reaches it |
| HealthComponent.NegativeDamageOverheals | Assets/Scripts/Combat/Health.cs:50-51 | 5 points of negative damage raise 100 of 100 health to 105: there is no upper clamp |
| HealthComponent.NegativeHealLowers | Assets/Scripts/Combat/Health.cs:108-109 | a heal of -5 lowers health 2 to -3: there is no lower clamp |
| HealthComponent.DamageHealMonotone | Assets/Scripts/Combat/Health.cs:48-109 | non-negative damage never raises health, and a non-negative heal from within the maximum never lowers it |
| HealthComponent.Health.constructor | Assets/Scripts/Combat/Health.cs:12-24 | the declared maximum of 100 with Awake's `CurrentHealth = MaxHealth`, not yet initialized |
| HealthComponent.Health.Initialize | Assets/Scripts/Combat/Health.cs:38-46 | the first call sets the maximum and current health to the given value; later calls change nothing |
| HealthComponent.Health.TakeDamage | Assets/Scripts/Combat/Health.cs:15-66 | current health becomes `max(current - d, 0)`; the maximum is unchanged; afterwards `IsAlive` (health above zero) holds exactly when the damage was below the health it had |
| HealthComponent.Health.Heal | Assets/Scripts/Combat/Health.cs:106-117 | current health becomes `min(current + a, max)`; the maximum is unchanged |
| Progression.SubseqExtend | Assets/Scripts/Configs/HeroConfig.cs:22 | a subsequence of a list stays one when the list is extended |
| Progression.SubseqAppendBoth | Assets/Scripts/Configs/HeroConfig.cs:22 | appending the same list to both sides keeps the subsequence relation |
| Progression.AttacksMonotone | Assets/Scripts/Configs/HeroConfig.cs:20-23 | for `l1 <= l2`, `AttacksForLevel(l1)` is a subsequence of `AttacksForLevel(l2)` |
| Progression.AttacksMembership | Assets/Scripts/Configs/HeroConfig.cs:20-23 | an attack is in `AttacksForLevel(l)` exactly when it is in the list of some entry whose key is at most `l` |
| Progression.AttacksBelowEveryKey | Assets/Scripts/Configs/HeroConfig.cs:22 | a level below every key yields the empty list |
| Progression.DuplicateKeysContribute | Assets/Scripts/Configs/HeroConfig.cs:22 | two entries under the same key both contribute, in entry order |
| Progression.Repeat | Assets/Scripts/Hero.cs:42-47 | the attack list added on each constructor pass, `n` times, has `n` times its length |
| Progression.HeroConfig.constructor | Assets/Scripts/Configs/HeroConfig.cs:14-18 | a config asset holding the given base stats, attack tables and curves |
| Progression.NewHeroState | Assets/Scripts/Hero.cs:35-53 | a new hero is inactive, at the given level, with no experience and full health; a level of 0 or less keeps the base health and attacks |
| Progression.LevelledUp | Assets/Scripts/Hero.cs:75-84 | the level rises by one, experience resets to 0 (the excess is discarded), both current and max health gain `floor(HealthBonus(newLevel))`, and the new level's attacks are appended |
| Progression.Gained | Assets/Scripts/Hero.cs:60-68 | gaining experience never changes whether the hero is active |
| Progression.ClampHealth | Assets/Scripts/Hero.cs:72 | the stored health is never negative, never above a non-negative maximum, and is the requested value when that lies in `[0, max]` |
| Progression.GainedAtMostOneLevel | Assets/Scripts/Hero.cs:60-68 | one call levels up at most once, exactly when the new total reaches the current level's threshold; without a level-up experience is the plain sum and attacks are kept, with one it is 0; current and max health change together |
| Progression.NewHeroOneLevel | Assets/Scripts/Hero.cs:42-47 | a level-1 hero gets the base health plus the level-1 bonus and the base attacks plus the level-1 attacks |
| Progression.Hero.constructor | Assets/Scripts/Hero.cs:35-53 | the loop runs `level` times and each pass adds the bonus and the attack list of the unchanged starting level, so the hero's state is `NewHeroState` |
| Progression.Hero.SetActive | Assets/Scripts/Hero.cs:55-58 | only the active flag changes |
| Progression.Hero.GainExperience | Assets/Scripts/Hero.cs:60-68 | the new state is `Gained` of the old one (see `GainedAtMostOneLevel`) |
| Progression.Hero.SetHealth | Assets/Scripts/Hero.cs:70-73 | only current health changes, to the requested value clamped into `[0, MaxHealth]` |
| Progression.Hero.LevelUp | Assets/Scripts/Hero.cs:75-84 | the new state is `LevelledUp` of the old one |
| Party.Take | Assets/Scripts/Combat/SetupBattleContext.cs:19-20 | LINQ `Take`: the first `min(count, n)` elements in order, none for a non-positive `n` |
| Party.EnemyConfig.constructor | Assets/Scripts/Combat/SetupBattleContext.cs:16 | an enemy config asset holding the given id, name, attacks (possibly missing), health, speed and experience value |
| Party.SetupBattleContext.constructor | Assets/Scripts/Combat/SetupBattleContext.cs:18-26 | each static hero config becomes a fresh level-1 `Hero`, in order; a null list gives an empty one; the enemies are the given list or empty; `MaxPerSide` is as given; the arguments default to no heroes, no enemies and `MaxPerSide` 3 |
| Party.SetupBattleContext.Heroes | Assets/Scripts/Combat/SetupBattleContext.cs:19 | the first `MaxPerSide` heroes in the order they were added, all of them when there are fewer, none for a non-positive `MaxPerSide` |
| Party.SetupBattleContext.Enemies | Assets/Scripts/Combat/SetupBattleContext.cs:20 | the first `MaxPerSide` enemies in list order, all of them when there are fewer, none for a non-positive `MaxPerSide` |
| Party.SetupBattleContext.AddHero | Assets/Scripts/Combat/SetupBattleContext.cs:28-31 | appends the hero at the end and leaves the enemies and `MaxPerSide` unchanged |
| Party.ActiveIdsOf | Assets/Scripts/PartyManager.cs:98-101 | the filter keeps exactly the listed keys that are active, and never lengthens the list |
| Party.ActiveIdsOfAgree | Assets/Scripts/PartyManager.cs:98-101 | the filter depends only on whether the listed heroes are active |
| Party.AppendActive | Assets/Scripts/PartyManager.cs:59-63 | a newly added key joins the active list at its end exactly when it is active |
| Party.HeroesOf | Assets/Scripts/PartyManager.cs:100 | the heroes stored under the keys, one per key, in key order |
| Party.Share | Assets/Scripts/PartyManager.cs:79-86 | an active hero's share is the truncating quotient by the active count (the whole gain when it is alone); an inactive hero's is `floor(exp / coefficient)` for the scene's coefficient: within one coefficient below `exp / coefficient` times it, and between 0 and the gain when the coefficient is at least 1 |
| Party.DistinctAt | Assets/Scripts/PartyManager.cs:56 | the key list has no repeats, so two positions hold different keys |
| Party.PartyManager.constructor | Assets/Scripts/PartyManager.cs:15-23 | an empty party holding the scene's `INACTIVE_EXP_COEFFICIENT` (12 unless set otherwise) |
| Party.PartyManager.HandleAddHero | Assets/Scripts/PartyManager.cs:54-65 | a config whose id is present is ignored; otherwise a fresh level-1 hero is stored under the id, and made active exactly when fewer than 3 were active; the active count therefore never exceeds 3 |
| Party.PartyManager.Insert | Assets/Scripts/PartyManager.cs:59 | `AllHeroes.Add`: the id is appended to the key order and a fresh inactive level-1 hero is stored under it; the active set is unchanged |
| Party.PartyManager.ActivateFirst | Assets/Scripts/PartyManager.cs:62 | `First(hero => hero.BaseConfig == config).SetActive(true)`: the hero just added becomes active and the active count grows by one |
| Party.PartyManager.HandleSetupBattle | Assets/Scripts/PartyManager.cs:67-73 | every active hero is appended to the context, in dictionary order; its enemies and `MaxPerSide` are unchanged |
| Party.PartyManager.HandleExperienceGain | Assets/Scripts/PartyManager.cs:75-88 | every hero gains its `Share`: active ones `exp / activeCount` (never with a zero count), inactive ones `floor(exp / INACTIVE_EXP_COEFFICIENT)`; who is active does not change |
| Party.PartyManager.GainFor | Assets/Scripts/PartyManager.cs:77-87 | one pass of the loop: the next hero in dictionary order gains its share |
| Party.PartyManager.GainOne | Assets/Scripts/PartyManager.cs:79-86 | one hero gains its share, computed from the active set before the call |
| Party.PartyManager.ActiveParty | Assets/Scripts/PartyManager.cs:98-101 | `GetActiveParty` holds `ActiveCount()` stored heroes, all active; a stored hero is in it exactly when it is active |
| Party.PartyManager.DistinctHeroes | Assets/Scripts/PartyManager.cs:56-59 | no hero object is stored under two ids |
| Party.PartyManager.HandleHealthChange | Assets/Scripts/PartyManager.cs:90-96 | for a hero battle actor the stored hero's health becomes `floor(currentHealth)` clamped into `[0, MaxHealth]` and every other hero is unchanged; an id the party does not hold throws; other payloads change nothing |
| Actors.BattleActor.constructor | Assets/Scripts/Combat/BattleActor.cs:15-25 | a spawned actor: its prefab's components (health at the 100 default and not yet initialized; the prefab's damage and resistance tables and its six inspector scalars), alive, speed 5 for an enemy (its field initializer) and 0 for a hero, no config and no attacks |
| Actors.BattleActor.InitializeHero | Assets/Scripts/Combat/BattleActor.cs:134-157 | the hero takes the config's attacks and base speed; health and resistances are initialized from the config unless they already were (their one-shot guard); the alive flag is untouched |
| Actors.BattleActor.InitializeEnemy | Assets/Scripts/Combat/EnemyBattleActor.cs:77-102 | the enemy keeps its config and speed; health is initialized to the config's maximum unless it already was; resistances are not touched |
| Actors.BattleActor.ChooseAIAction | Assets/Scripts/Combat/EnemyBattleActor.cs:123-136 | an attack with the config's first attack on the given target when that attack is present; Defend when there is no config or the first attack is missing; the out-of-range error when the config lists no attack at all |
| Actors.BattleActor.TakeDamage | Assets/Scripts/Combat/EnemyBattleActor.cs:29-119 | health falls by the damage, clamped at 0, leaving the maximum alone; an enemy's `IsAlive` is its health's, so it stays alive exactly when the damage was below its health; a hero's `IsAlive` is its `_isAlive` flag (Assets/Scripts/Combat/BattleActor.cs:37), which damage does not change |
| Actors.BattleActor.Heal | Assets/Scripts/Combat/EnemyBattleActor.cs:120 | health rises by the amount, clamped at the maximum, leaving the maximum alone |
| Battle.Living | Assets/Scripts/BattleManager.cs:237 | `RemoveAll(!IsAlive)` keeps only living members of the list and never lengthens it |
| Battle.LivingComplete | Assets/Scripts/BattleManager.cs:237 | a living member of the list survives the filter (with `Living`'s ensures: exactly the living members remain) |
| Battle.LivingEnemies | Assets/Scripts/BattleManager.cs:238 | the enemy pruning keeps only living, AI-controlled members |
| Battle.LivingEnemiesComplete | Assets/Scripts/BattleManager.cs:238 | a living AI-controlled member survives the enemy pruning |
| Battle.PlayerControlled | Assets/Scripts/BattleManager.cs:239 | the player pruning keeps only player-controlled members |
| Battle.PlayerControlledKeepsAll | Assets/Scripts/BattleManager.cs:239 | on a list of player-controlled actors the player pruning removes nothing |
| Battle.BattleManager.CheckBattleEndConditions | Assets/Scripts/BattleManager.cs:364-380 | on the manager's own lists: a loss exactly when no player actor is alive; a win exactly when some player actor lives and no enemy actor does |
| Battle.EndOf | Assets/Scripts/BattleManager.cs:364-380 | a loss exactly when no player is alive (checked first, so also when every enemy is dead); a win exactly when some player lives and no enemy does; undecided exactly when both sides have a living member |
| Battle.Keyed | Assets/Scripts/BattleManager.cs:260 | each actor paired with its current speed, the sort key, in roster order |
| Battle.TurnOrderMembers | Assets/Scripts/BattleManager.cs:258-261 | an actor is in the round's queue exactly when it is on the active list and alive |
| Battle.TurnOrderBySpeed | Assets/Scripts/BattleManager.cs:258-261 | the queue is ordered by speed, highest first |
| Battle.TurnOrderStable | Assets/Scripts/BattleManager.cs:258-261 | `OrderByDescending` is stable: actors of one speed keep their roster order |
| Battle.RollKeys | Assets/Scripts/BattleManager.cs:338 | one fresh `Random.value` per living player, read in order from the stream |
| Battle.FirstMin | Assets/Scripts/BattleManager.cs:338-339 | `OrderBy(key).FirstOrDefault()`: a position holding the smallest key, and the first such position |
| Battle.ChooseTarget | Assets/Scripts/BattleManager.cs:336-339 | the enemy's target is one of the living players |
| Battle.BattleManager.constructor | Assets/Scripts/BattleManager.cs:43-49 | the field defaults: state CalculatingTurnOrder, empty rosters and queue, no current actor, no coroutine running |
| Battle.BattleManager.HandlePlayerActionChosen | Assets/Scripts/BattleManager.cs:103-106 | stores the chosen action and changes nothing else |
| Battle.BattleManager.HandleLeaveBattle | Assets/Scripts/BattleManager.cs:382-402 | clears the rosters, the queue and the current actor, and requests the overworld state; nothing else changes |
| Battle.BattleManager.SetupBattle | Assets/Scripts/BattleManager.cs:125-183 | one initialized hero actor per hero config and an enemy actor per enemy config while spawn points remain, with consecutive ids; the active list is heroes then enemies; a hero beyond the player spawn points throws, leaving the heroes spawned so far and starting no loop; otherwise the battle is announced with the active list and the loop starts |
| Battle.BattleManager.Install | Assets/Scripts/BattleManager.cs:130-182 | the cleared rosters are replaced by the spawned actors, every instantiated actor joins the listeners, and only a completed setup announces the battle and starts the loop |
| Battle.BattleManager.SpawnHeroes | Assets/Scripts/BattleManager.cs:137-155 | a fresh initialized hero per config, in order, until the spawn points run out; the object instantiated for the first hero without a spawn point is returned apart, with the next id |
| Battle.BattleManager.SpawnEnemies | Assets/Scripts/BattleManager.cs:158-176 | a fresh initialized enemy per config, in order, for as many configs as there are spawn points |
| Battle.BattleManager.Step | Assets/Scripts/BattleManager.cs:185-250 | one step of the battle coroutine keeps the manager's invariant and the player list; a stopped or faulted coroutine does nothing |
| Battle.BattleManager.LoopHeadStep | Assets/Scripts/BattleManager.cs:191-194 | the outer loop: while neither side has lost, a new round computes the turn order; otherwise the loop is left for the ending |
| Battle.BattleManager.CalculateTurnOrder | Assets/Scripts/BattleManager.cs:252-270 | the queue becomes the living actors by speed, highest first (with the three turn-order lemmas); the state is CalculatingTurnOrder; nothing else changes |
| Battle.BattleManager.NextTurn | Assets/Scripts/BattleManager.cs:196-205 | while the queue is not empty and the battle is undecided, the head is dequeued and becomes the current actor; a dead one is skipped; otherwise back to the outer loop |
| Battle.BattleManager.StartTurn | Assets/Scripts/BattleManager.cs:207-229 | the turn-start event unless the battle has ended; a player actor puts the battle in PlayerTurn, announces its attacks and the living enemies, resets the chosen action and waits; an AI actor puts it in EnemyTurn and acts |
| Battle.BattleManager.ResumePlayerTurn | Assets/Scripts/BattleManager.cs:221-223 | the wait holds while no action is chosen; once one is, the current actor performs it and the turn ends |
| Battle.BattleManager.PerformPlayerAction | Assets/Scripts/BattleManager.cs:272-327 | an Attack with a definition on a living target strikes it; Run ends the battle as a loss; every other action changes only the state; the chosen action is reset except after Run |
| Battle.BattleManager.Strike | Assets/Scripts/BattleManager.cs:287 | the target's health falls by the attack's final damage, computed with every spawned actor listening, and the stream advances past the rolls used |
| Battle.BattleManager.EnemyTurnStep | Assets/Scripts/BattleManager.cs:329-345 | one random key per living player picks the target; with no living player the turn just ends; an enemy whose AI does not choose an attack faults (the attack definition it dereferences is missing) |
| Battle.BattleManager.EnemyStrikeStep | Assets/Scripts/BattleManager.cs:345-358 | the chosen player's health falls by the enemy's attack damage and the turn ends |
| Battle.BattleManager.TurnEndStep | Assets/Scripts/BattleManager.cs:231-239 | the turn-end event unless the battle has ended; the dead leave the active and enemy lists; the player list stays as it is |
| Battle.BattleManager.EndingStep | Assets/Scripts/BattleManager.cs:243-249 | the state becomes BattleEnd and the outcome is announced as a win exactly when the players won |
| Battle.BattleManager.PlayersNeverLose | Assets/Scripts/BattleManager.cs:366-372 | a player actor's liveness is its `_isAlive` flag, which nothing in the battle clears, so with one player on the list the battle is never lost |
| TurnOrder.WithKeyAppend | Assets/Scripts/BattleManager.cs:260 | selecting one speed from a roster with an actor appended adds that actor at the end exactly when it has that speed |
| TurnOrder.Insert | Assets/Scripts/BattleManager.cs:260 | inserting below every entry of a higher or equal key adds exactly that entry and keeps a descending list descending |
| TurnOrder.AppendBelow | Assets/Scripts/BattleManager.cs:260 | an entry keyed below everything of a sorted list can follow it without breaking the order |
| TurnOrder.SortDesc | Assets/Scripts/BattleManager.cs:260 | `OrderByDescending` by speed: a permutation of the input, ordered by key, highest first |
| TurnOrder.InsertStable | Assets/Scripts/BattleManager.cs:260 | an insertion places the new entry after every earlier entry of the same key |
| TurnOrder.SortStable | Assets/Scripts/BattleManager.cs:260 | the sort keeps the relative order of entries of equal key |
| TurnOrder.Values | Assets/Scripts/BattleManager.cs:261 | `ToList` of the sorted actors: the actors of the keyed list, position by position |
| TurnOrder.SortMembers | Assets/Scripts/BattleManager.cs:258-261 | the sorted list holds exactly the actors of the input |
| CsMath.CsDiv | Assets/Scripts/PartyManager.cs:81 | C# integer division truncates toward zero: the remainder takes the dividend's sign and is smaller than the divisor in magnitude |
| CsMath.CsRem | Assets/Scripts/SpriteCharacter2D.cs:143 | C# `%`: the dividend is quotient times divisor plus remainder, the remainder has the dividend's sign and is smaller than the divisor in magnitude |
| CsMath.AgreeOnNatural | Assets/Scripts/SpriteCharacter2D.cs:105 | on a non-negative dividend and a positive divisor the C# operators agree with Dafny's |
| Sprites.PlaybackTypeFromAnimation | Assets/Scripts/Configs/SpriteBookConfig.cs:16-36 | Die plays then stops; Defend, Jump, Attack, Critical and Hurt play once; None, Idle, Walk and Run loop; the three classes cover every animation |
| Sprites.GroupedEntries | Assets/Scripts/SpriteCharacter2D.cs:156-170 | the built map has a key exactly for the animations with a non-null sheet, and holds those sheets in list order |
| Sprites.BooksOfType | Assets/Scripts/SpriteCharacter2D.cs:165-168 | every sheet filed under an animation is a sheet of that animation |
| Sprites.Search | Assets/Scripts/SpriteCharacter2D.cs:200-238 | a state the search settles on has at least one sheet; the table afterwards keeps every key it had |
| Sprites.SearchKeepsOthers | Assets/Scripts/SpriteCharacter2D.cs:229-233 | the search rewrites only the entries of the states it moves to |
| Sprites.FallbackTableLeaks | Assets/Scripts/SpriteCharacter2D.cs:38-43 | the fallback table is shared and rewritten: on a character with only Idle sheets, Walk alone finds nothing, but after Run has fallen back through Walk to Idle the table gives Walk the fallback Idle, and Walk then plays Idle |
| Sprites.Pick | Assets/Scripts/SpriteCharacter2D.cs:209-211 | the sheet played is one of the state's sheets, and the only one when there is one |
| Sprites.FrameStepInRange | Assets/Scripts/SpriteCharacter2D.cs:100-124 | on a non-empty sheet each playback type's step succeeds and keeps the index on the sheet |
| Sprites.LoopWraps | Assets/Scripts/SpriteCharacter2D.cs:104-106 | a looping sheet advances by one and wraps from its last frame to its first |
| Sprites.StopHolds | Assets/Scripts/SpriteCharacter2D.cs:117-123 | a play-then-stop sheet at its last frame stays there and reports its end |
| Sprites.FrameCellOnSheet | Assets/Scripts/SpriteCharacter2D.cs:143-144 | an index on the sheet names a column and a row of the sheet, row-major, and is recovered from them |
| Sprites.Prepared | Assets/Scripts/SpriteCharacter2D.cs:198 | Play always has a map to search, building it when there is none |
| Sprites.PlayOutcome | Assets/Scripts/SpriteCharacter2D.cs:194-244 | playing the current state changes nothing and does not throw; otherwise the table is the search's; when nothing is found only the table changes; when a state is found it is current, from its first frame, with one of its sheets active, and it becomes the loop state unless its sheet does not loop; Play then throws, in `UpdateFrame`, exactly when that sheet has no columns |
| Sprites.PlayDirect | Assets/Scripts/SpriteCharacter2D.cs:206-225 | a state with sheets of its own is shown directly, from its first frame, and the fallback table is left alone; it throws exactly when the sheet has no columns |
| Sprites.LoadShows | Assets/Scripts/SpriteCharacter2D.cs:182-188 | after the map is rebuilt and the state reset, an Idle or Walk state with sheets becomes current and the loop state, from its first frame, and the table is untouched; the Play throws exactly when the sheet has no columns |
| Sprites.LoadOutcome | Assets/Scripts/SpriteCharacter2D.cs:173-191 | loading a config takes its name and side (an enemy is flipped) and shows Idle when it has Idle sheets, else Walk when it has Walk sheets, else no sheet; it throws exactly when the sheet shown has no columns |
| Sprites.UpdateKeepsFrameOnSheet | Assets/Scripts/SpriteCharacter2D.cs:95-129 | a frame update keeps a looping or play-then-stop sheet active, its state current and its index on the sheet |
| Sprites.FallbackTable.constructor | Assets/Scripts/SpriteCharacter2D.cs:38-43 | the static table starts with Critical to Attack, Run to Walk then Idle, and Defend to Jump then Idle |
| Sprites.SpriteCharacter2D.constructor | Assets/Scripts/SpriteCharacter2D.cs:12-35 | the serialized defaults: named "Unnamed", not flipped, state None, no map, no sheet, first frame |
| Sprites.SpriteCharacter2D.BuildAnimationMap | Assets/Scripts/SpriteCharacter2D.cs:156-170 | the map becomes the grouping of the non-null sheets (empty for a null list), with the contents `GroupedEntries` states |
| Sprites.SpriteCharacter2D.Play | Assets/Scripts/SpriteCharacter2D.cs:194-244 | the new fields and table, and whether it threw, are those of `Played`, whose outcome `PlayOutcome` and `PlayDirect` state |
| Sprites.SpriteCharacter2D.FindBook | Assets/Scripts/SpriteCharacter2D.cs:200-238 | the loop settles on the state `Search` finds and leaves the shared table as `Search` does |
| Sprites.SpriteCharacter2D.ShowBook | Assets/Scripts/SpriteCharacter2D.cs:206-225 | the found sheet is shown from its first frame, with a looping sheet's state as the loop state; the closing `UpdateFrame` throws, after those fields are set, when the sheet has no columns |
| Sprites.SpriteCharacter2D.Start | Assets/Scripts/SpriteCharacter2D.cs:71-74 | plays Idle, and throws when Play does |
| Sprites.SpriteCharacter2D.UpdateFrame | Assets/Scripts/SpriteCharacter2D.cs:139-154 | the cell shown is the index's column and row, which lie on the sheet for an index on it |
| Sprites.SpriteCharacter2D.Update | Assets/Scripts/SpriteCharacter2D.cs:76-130 | without a sheet only the flip is cleared when a placeholder exists; otherwise the timer advances and a due frame steps the index, as `UpdateKeepsFrameOnSheet` bounds |
| Sprites.SpriteCharacter2D.Advance | Assets/Scripts/SpriteCharacter2D.cs:100-128 | the playback switch, the hand-over of a finished play-once sheet to the loop state (whose throw ends the update), then the drawing and the timer reset |
| Sprites.SpriteCharacter2D.Draw | Assets/Scripts/SpriteCharacter2D.cs:127-128 | the frame is drawn and the timer restarts, unless a sheet without columns throws |
| Sprites.SpriteCharacter2D.LoadFromConfig | Assets/Scripts/SpriteCharacter2D.cs:173-191 | the new fields, and whether its Play threw, are those of `Loaded`, whose outcome `LoadOutcome` states; a null config changes nothing |
| Sprites.SpriteCharacter2D.ResetCharacter | Assets/Scripts/SpriteCharacter2D.cs:248-264 | the name back to "Unnamed", the sheet list and map cleared where they exist, no active sheet, state None at the first frame |
| Sprites.SpriteCharacter2D.GetAvailableStates | Assets/Scripts/SpriteCharacter2D.cs:265-269 | the map is built when missing, and the result is exactly its keys |
| Triggers.RecordedEntries | Assets/Scripts/TriggerManager.cs:51-57 | recording adds exactly the listed names to the store, leaves each of them holding the value, and keeps every other entry |
| Triggers.RecordThenCheck | Assets/Scripts/TriggerManager.cs:26-57 | after names are recorded as true, a check requiring any of those names passes |
| Triggers.RecordFalseBlocks | Assets/Scripts/TriggerManager.cs:26-57 | after a name is recorded as false, every check requiring it fails |
| Triggers.TriggerCheckContext.constructor | Assets/Scripts/Triggers/TriggerCheckContext.cs:13-17 | a context holds the triggers it asks about and starts invalid |
| Triggers.TriggerManager.constructor | Assets/Scripts/TriggerManager.cs:13-18 | OnEnable starts with an empty store |
| Triggers.TriggerManager.HandleTriggerCheck | Assets/Scripts/TriggerManager.cs:26-49 | the context becomes valid exactly when it was already valid or every required name is recorded as true (so always for an empty list); the store is not changed |
| Triggers.TriggerManager.HandleRecordTrigger | Assets/Scripts/TriggerManager.cs:51-57 | the store after writing the value under each listed name in turn, with the contents `RecordedEntries` states |
| Cameras.Switched | Assets/Scripts/CameraManagement/CameraManager.cs:117-144 | enabled as asked; enabling tags the camera MainCamera; disabling removes that tag and keeps any other |
| Cameras.SwitchedIdempotent | Assets/Scripts/CameraManagement/CameraManager.cs:117-144 | switching a camera the same way twice is switching it once |
| Cameras.Camera.constructor | Assets/Scripts/CameraManagement/CameraManager.cs:117-120 | a camera with the given enabled flag and tag |
| Cameras.CameraManager.constructor | Assets/Scripts/CameraManagement/CameraManager.cs:13-20 | the three configured ids, an empty registry and no active camera |
| Cameras.CameraManager.CameraIdFor | Assets/Scripts/CameraManagement/CameraManager.cs:166-186 | exactly Overworld, Battle and Cutscene name a camera to activate |
| Cameras.CameraManager.SetCameraActiveState | Assets/Scripts/CameraManagement/CameraManager.cs:117-144 | a null camera is left alone; any other is switched as `Switched` says |
| Cameras.CameraManager.RegisterCamera | Assets/Scripts/CameraManagement/CameraManager.cs:42-57 | the id maps to the camera, added or overwritten; the camera is disabled; the active camera is unchanged; at most the active camera stays enabled |
| Cameras.CameraManager.UnregisterCamera | Assets/Scripts/CameraManagement/CameraManager.cs:63-75 | the id leaves the registry; the active camera is forgotten exactly when it was that id's camera; with no camera under two ids at most the active camera stays enabled |
| Cameras.CameraManager.ActivateCamera | Assets/Scripts/CameraManagement/CameraManager.cs:81-111 | nothing changes for an unknown id or the camera already active; otherwise the old camera is disabled, the target enabled and tagged, and the target becomes active; at most the active camera stays enabled |
| Cameras.CameraManager.HandleGameStateChange | Assets/Scripts/CameraManagement/CameraManager.cs:166-186 | Overworld, Battle and Cutscene activate their configured camera as `ActivateCamera` does: an unregistered id or the camera already active changes nothing; otherwise the old camera is switched off and the target is switched on, tagged MainCamera and made active. Every other state changes nothing; at most the active camera stays enabled |
| Backdrops.NextIndex | Assets/Scripts/UI/Backdrop.cs:20-27 | on a valid index, the next index is the successor modulo the list length |
| Backdrops.PrevIndex | Assets/Scripts/UI/Backdrop.cs:29-36 | on a valid index, the previous index is the predecessor modulo the list length |
| Backdrops.StepsRoundTrip | Assets/Scripts/UI/Backdrop.cs:20-36 | Prev undoes Next and Next undoes Prev |
| Backdrops.GameObject.constructor | Assets/Scripts/UI/Backdrop.cs:7 | a background object with the given active flag |
| Backdrops.Backdrop.constructor | Assets/Scripts/UI/Backdrop.cs:7-9 | the serialized list, with the index starting at 0 |
| Backdrops.Backdrop.Awake | Assets/Scripts/UI/Backdrop.cs:11-18 | every background is hidden, then the first shown; a null first entry throws; with no object listed twice only the first is active |
| Backdrops.Backdrop.Next | Assets/Scripts/UI/Backdrop.cs:20-27 | from an index holding an object: it is hidden, the index moves to `NextIndex`, and the object there is shown (throwing on null); nothing else changes; only-one-shown is kept; from any other index it throws, changing nothing |
| Backdrops.Backdrop.Prev | Assets/Scripts/UI/Backdrop.cs:29-36 | the same with `PrevIndex` |

## Left out

- Engine wiring:
  - `Awake`/`OnEnable`/`OnDisable` subscriptions, `GetComponent` lookups and the `CameraManager` singleton;
  - the prefab is assumed to carry its actor component, so the "component missing" branches of `SetupBattle` are not modelled;
  - `SetupBattle` is modelled only while no battle coroutine is running (`pc == Stopped`), because a second coroutine running beside the first is not modelled.
- Presentation:
  - textures, materials and UV offsets in `SpriteCharacter2D`;
  - the unused `multSpeed` and the renderer null check in `Update`;
  - `FaceCamera` and `OrientToCamera`;
  - turn markers and death fades;
  - health-change events;
  - the AudioListener in `SetCameraActiveState`;
  - the sprite `Play` calls in `PerformAttack`, `DelayDefenderAnim`, `PerformPlayerAction`'s Run branch and `HandleBattleEnd` (their exceptions are the next line);
  - the flip of the sprite on Run.
- Sprite exceptions during a battle: the actors do not model their sprite child, so the model never throws at these `Play` calls. In the game, each throws a DivideByZeroException when the sheet it shows has no columns (`Sprites.PlayOutcome` states when), or a NullReferenceException when the actor has no sprite child. The game rules change as follows:
  - the attacker's `Play(Critical)` or `Play(Attack)` (Assets/Scripts/Combat/CombatManager.cs:47-55): `PerformAttack` stops before `DelayDefenderAnim` starts, so the defender takes no damage, and the exception ends the `BattleLoop` coroutine. The model always applies the damage (`Battle.BattleManager.Strike`, `Battle.BattleManager.EnemyStrikeStep`) and goes on;
  - the defender's `Play(Defend)` or `Play(Hurt)` (Assets/Scripts/Combat/CombatManager.cs:72-80): `TakeDamage` at line 82 is skipped, so the defender takes no damage, but the battle goes on. The model applies the damage;
  - `Play(Run)` in the Run branch (Assets/Scripts/BattleManager.cs:315-317): `BattleEnd` and `battleEnd(false)` are skipped, and the coroutine ends without the battle ending. The model always ends the battle as a loss (`Battle.BattleManager.PerformPlayerAction`).
- Deactivation on death: `Health` deactivates a defeated actor (Assets/Scripts/Combat/Health.cs:60-65, directly or at the end of its fade), and the `OnDisable` of its `Attack` and `Resistance` then unsubscribes them. The model keeps every spawned actor listening. A defeated hero, whose `_isAlive` stays set, therefore keeps taking turns with its offensive and defensive modifiers still applied, where the game would run its later attacks and defences without them.
- `Actors.BattleActor.InitializeHero` and `Actors.BattleActor.InitializeEnemy` do not model the sprite child's `LoadFromConfig` near their start (Assets/Scripts/Combat/BattleActor.cs:141-144, Assets/Scripts/Combat/EnemyBattleActor.cs:79-82). When the config's Idle or Walk sheet has no columns, that call throws (`Sprites.LoadOutcome` states when), and the rest of `Initialize` does not run. The model initializes such an actor fully.
- `Party.Share`: the coefficient is a non-zero real. A coefficient of 0, or a quotient outside the `int` range, leaves the result of C#'s `(int)` cast unspecified, so those cases are not modelled.
- Audio: `PlayBGM` in `BattleLoop`, `CheckBattleEndConditions` and `HandleLeaveBattle` is a side effect with no bearing on the rules.
- Timing:
  - `WaitForSeconds` and `yield return null` take no time here;
  - `DelayDefenderAnim`'s `TakeDamage` is applied at once, inside `PerformAttack`, not 0.35 s later;
  - `Time.deltaTime` is the parameter `deltaTime`.
- `Step` granularity: a step runs several C# statements at once. The interleavings that the model cannot produce are the event handlers arriving between those statements.
- Battle rolls: `Damage.Calculate` takes a damage type's roll from the stream as it is. The model does not constrain the roll to the `[min, max]` range that `Random.Range` returns.
- Dictionary lookups on an asset assumed well formed:
  - `progressions[HeroProgression.HealthBonus]` is assumed present, so its missing-key exception is not modelled;
  - the damage and condition tables are assumed to have keys and values lists of equal length (`WellFormed`, `Aligned`). Members that work on such a table carry this as a requires clause; they include the modifier merges, `CalculateFinalValues`, `PerformAttack`, `InitializeEnemy` and `SetupBattle`.
- `Battle.BattleManager.Valid` and `Party.PartyManager.Valid` are class invariants that the methods require and keep. They say that no hero is on the enemy list and that party keys are distinct. `Ranges.IntRange.Valid` says that both ends are 32-bit values. The range lemmas assume it, and every operator's result meets it because `Wrap` does.
- `Party.PartyManager.ActivateFirst`: it requires the hero it activates to be the one just added. `First(...)` on the dictionary then finds that hero because configs are unique per id. A second hero sharing the same config object under another id is not modelled.
- Version skew in the source:
  - `HeroBattleActor.Initialize(Hero)` calls a two-argument `Health.Initialize` that does not exist, and `BattleManager` spawns `PlayerBattleActor`. The model therefore initializes heroes by `BattleActor.Initialize(config)`, from `baseHealth`;
  - `ActorName` and `Attack.OnCalculationRequested` appear only in log lines and in a subscription. They are not modelled.
- `AttackDefinition` is modelled by the fields that the calculation, `Attack` and `Resistance` read and write. `AttackDefinition.cs`, whose fields lag behind these uses, is not part of this model.
- Enum values outside their declared range (a C# enum cast from an arbitrary int) are not modelled, so the `default` branches of the switches are unreachable here.
- Defend: like the source, it only changes the battle state; no defence buff exists.
- `Conditions`: staged conditions are not applied to actors, and no per-turn ticking, burn damage or stun exists. The model adds none of these, because the source has none.
- `Backdrops.Backdrop`: the serialized list is a constant, and editing it at runtime is not modelled. `BackdropEditor`'s inspector buttons only call `Next` and `Prev`.
- `Battle.ChooseTarget`: the target is the first living player holding the smallest random key. The model does not state that the choice is uniform.
- `Sprites.SpriteCharacter2D.UpdateFrame`: returns the sheet cell the index shows instead of writing texture offsets.
- `Cameras.CameraManager.HandleGameStateChange`: the `GameConfig` argument is ignored, as in the source.
- UI, scene loading, the game state machines, cutscenes, conversation and input: these are outside the modelled rules.
