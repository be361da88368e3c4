/**
 * The attack definition a combat calculation works on, the folds that
 * attacker and defender modifiers apply to it, and the damage calculation
 * (Assets/Scripts/Combat/CombatCalculationContext.cs).
 *
 * Floats are `real`. Every random value (UnityEngine.Random.value and
 * Random.Range) is read from an injected stream `draws`, position by
 * position; each calculation takes the position of its first roll and
 * returns the position after its last.
 */
module Damage {
  import opened Wrappers
  import opened Tables
  import opened Ranges
  import opened Conditions

  datatype DamageType = PHYSICAL | ERG | ADDO | SOLLU | SQUQ | AIY | MAR | VEX | STRUE

  /** The fixed order in which damage types are summed. */
  const DamageTypes: seq<DamageType> := [PHYSICAL, ERG, ADDO, SOLLU, SQUQ, AIY, MAR, VEX, STRUE]

  /** Every damage type is summed exactly once. */
  lemma DamageTypesOnce()
    ensures forall t: DamageType :: t in DamageTypes
    ensures forall i, j :: 0 <= i < j < |DamageTypes| ==> DamageTypes[i] != DamageTypes[j]
  {
    forall t: DamageType ensures t in DamageTypes {
      match t
      case PHYSICAL => assert DamageTypes[0] == t;
      case ERG => assert DamageTypes[1] == t;
      case ADDO => assert DamageTypes[2] == t;
      case SOLLU => assert DamageTypes[3] == t;
      case SQUQ => assert DamageTypes[4] == t;
      case AIY => assert DamageTypes[5] == t;
      case MAR => assert DamageTypes[6] == t;
      case VEX => assert DamageTypes[7] == t;
      case STRUE => assert DamageTypes[8] == t;
    }
  }

  /**
   * The fields of the working (cloned) attack definition that the modifiers
   * and the calculation read and write.
   */
  datatype AttackData = AttackData(
    attackName: string,
    baseDamageRangeByType: Table<DamageType, FloatRange>,
    baseDamageModifierByType: Table<DamageType, real>,
    damageMultiplierByType: Table<DamageType, real>,
    conditionStats: Table<Condition, StatsData>,
    dodgeChance: real,
    baseCritChance: real,
    critChanceBonus: real,
    overallDamageModifier: real,
    overallDamageMultiplier: real,
    overallResistanceModifier: real,
    overallResistanceMultiplier: real)

  /** Every table has aligned key and value lists, so `Keys.Contains(k)` implies the indexer finds `k`. */
  predicate WellFormed(d: AttackData)
  {
    && Aligned(d.baseDamageRangeByType)
    && Aligned(d.baseDamageModifierByType)
    && Aligned(d.damageMultiplierByType)
    && Aligned(d.conditionStats)
  }

  function Max(a: real, b: real): real
  {
    if a >= b then a else b
  }

  // ----- Merging modifier tables into the definition -----

  /** One merge step: an existing entry becomes `old + delta`, a missing one is inserted as `start + delta`. */
  function Bump(t: Table<DamageType, real>, k: DamageType, delta: real, start: real): Table<DamageType, real>
  {
    if k in t.keys then Assign(t, k, LookupOr(t, k, 0.0) + delta)
    else Assign(t, k, start + delta)
  }

  /** `a` added, or subtracted when `subtract` holds. */
  function Signed(subtract: bool, a: real): real
  {
    if subtract then -a else a
  }

  /** A `foreach` over modifier entries, each added (or, for resistances, subtracted). */
  function FoldBump(t: Table<DamageType, real>, es: seq<(DamageType, real)>, subtract: bool, start: real): Table<DamageType, real>
  {
    if |es| == 0 then t
    else
      var last := es[|es| - 1];
      Bump(FoldBump(t, es[..|es| - 1], subtract, start), last.0, Signed(subtract, last.1), start)
  }

  /** Some entry of `es` has key `k`. */
  predicate Mentions<V>(es: seq<(DamageType, V)>, k: DamageType)
  {
    exists i :: 0 <= i < |es| && es[i].0 == k
  }

  /** The sum of the values of the entries of `es` with key `k`. */
  function SumFor(es: seq<(DamageType, real)>, k: DamageType): real
  {
    if |es| == 0 then 0.0
    else SumFor(es[..|es| - 1], k) + (if es[|es| - 1].0 == k then es[|es| - 1].1 else 0.0)
  }

  lemma {:induction false} SumForUnmentioned(es: seq<(DamageType, real)>, k: DamageType)
    requires !Mentions(es, k)
    ensures SumFor(es, k) == 0.0
  {
    if |es| > 0 {
      MentionsPrefix(es, k);
      SumForUnmentioned(es[..|es| - 1], k);
    }
  }

  lemma MentionsPrefix<V>(es: seq<(DamageType, V)>, k: DamageType)
    requires |es| > 0
    ensures Mentions(es, k) <==> Mentions(es[..|es| - 1], k) || es[|es| - 1].0 == k
  {
    var init := es[..|es| - 1];
    if Mentions(es, k) && es[|es| - 1].0 != k {
      var i :| 0 <= i < |es| && es[i].0 == k;
      assert init[i] == es[i];
    }
    if Mentions(init, k) {
      var i :| 0 <= i < |init| && init[i].0 == k;
      assert es[i] == init[i];
    }
  }

  /** One merge step changes only the entry of its own key. */
  lemma BumpLookup(t: Table<DamageType, real>, key: DamageType, delta: real, start: real, k: DamageType)
    requires Aligned(t)
    ensures Aligned(Bump(t, key, delta, start))
    ensures k in Bump(t, key, delta, start).keys <==> k in t.keys || k == key
    ensures Lookup(Bump(t, key, delta, start), k) ==
      if k == key then Some(LookupOr(t, k, start) + delta) else Lookup(t, k)
  {
    var v := if key in t.keys then LookupOr(t, key, 0.0) + delta else start + delta;
    AssignThenLookup(t, key, v, k);
    AssignShape(t, key, v);
  }

  /** Merging entries keeps a table aligned and adds exactly the mentioned keys. */
  lemma {:induction false} FoldBumpShape(t: Table<DamageType, real>, es: seq<(DamageType, real)>, subtract: bool, start: real, k: DamageType)
    requires Aligned(t)
    ensures Aligned(FoldBump(t, es, subtract, start))
    ensures k in FoldBump(t, es, subtract, start).keys <==> k in t.keys || Mentions(es, k)
  {
    if |es| > 0 {
      var init, last := es[..|es| - 1], es[|es| - 1];
      FoldBumpShape(t, init, subtract, start, k);
      MentionsPrefix(es, k);
      BumpLookup(FoldBump(t, init, subtract, start), last.0, Signed(subtract, last.1), start, k);
    }
  }

  /** Merging entries adds (or subtracts) their sum for `k` to the value `k` reads with default `start`. */
  lemma {:induction false} FoldBumpValue(t: Table<DamageType, real>, es: seq<(DamageType, real)>, subtract: bool, start: real, k: DamageType)
    requires Aligned(t)
    ensures LookupOr(FoldBump(t, es, subtract, start), k, start) == LookupOr(t, k, start) + Signed(subtract, SumFor(es, k))
  {
    if |es| > 0 {
      var init, last := es[..|es| - 1], es[|es| - 1];
      FoldBumpValue(t, init, subtract, start, k);
      FoldBumpShape(t, init, subtract, start, k);
      BumpLookup(FoldBump(t, init, subtract, start), last.0, Signed(subtract, last.1), start, k);
    }
  }

  /** In an aligned table, Lookup finds exactly the listed keys, and LookupOr reads the found value. */
  lemma LookupByKey<K, V>(t: Table<K, V>, k: K, default: V)
    requires Aligned(t)
    ensures Lookup(t, k) == if k in t.keys then Some(LookupOr(t, k, default)) else None
  {
  }

  /**
   * After merging the entries `es`, a type ends up with its old value (or
   * `start` if it was missing) plus (or minus) the sum of its entries; a type
   * no entry mentions reads as before.
   */
  lemma FoldBumpLookup(t: Table<DamageType, real>, es: seq<(DamageType, real)>, subtract: bool, start: real, k: DamageType)
    requires Aligned(t)
    ensures Aligned(FoldBump(t, es, subtract, start))
    ensures k in FoldBump(t, es, subtract, start).keys <==> k in t.keys || Mentions(es, k)
    ensures Lookup(FoldBump(t, es, subtract, start), k) ==
      if k in t.keys || Mentions(es, k) then Some(LookupOr(t, k, start) + Signed(subtract, SumFor(es, k)))
      else Lookup(t, k)
  {
    FoldBumpShape(t, es, subtract, start, k);
    FoldBumpValue(t, es, subtract, start, k);
    LookupByKey(FoldBump(t, es, subtract, start), k, start);
    if !(k in t.keys || Mentions(es, k)) {
      LookupByKey(t, k, start);
    }
  }

  /** One range merge step: an existing range is widened componentwise, a missing one inserted as-is. */
  function BumpRange(t: Table<DamageType, FloatRange>, k: DamageType, r: FloatRange): Table<DamageType, FloatRange>
  {
    if k in t.keys then Assign(t, k, Plus(LookupOr(t, k, FloatRange(0.0, 0.0)), r))
    else Assign(t, k, r)
  }

  function FoldRanges(t: Table<DamageType, FloatRange>, es: seq<(DamageType, FloatRange)>): Table<DamageType, FloatRange>
  {
    if |es| == 0 then t
    else
      var last := es[|es| - 1];
      BumpRange(FoldRanges(t, es[..|es| - 1]), last.0, last.1)
  }

  /** The componentwise sum of the ranges of the entries of `es` with key `k`. */
  function RangeSumFor(es: seq<(DamageType, FloatRange)>, k: DamageType): FloatRange
  {
    if |es| == 0 then FloatRange(0.0, 0.0)
    else Plus(RangeSumFor(es[..|es| - 1], k), if es[|es| - 1].0 == k then es[|es| - 1].1 else FloatRange(0.0, 0.0))
  }

  lemma {:induction false} RangeSumForUnmentioned(es: seq<(DamageType, FloatRange)>, k: DamageType)
    requires !Mentions(es, k)
    ensures RangeSumFor(es, k) == FloatRange(0.0, 0.0)
  {
    if |es| > 0 {
      MentionsPrefix(es, k);
      RangeSumForUnmentioned(es[..|es| - 1], k);
    }
  }

  /** One range merge step changes only the entry of its own key. */
  lemma BumpRangeLookup(t: Table<DamageType, FloatRange>, key: DamageType, r: FloatRange, k: DamageType)
    requires Aligned(t)
    ensures Aligned(BumpRange(t, key, r))
    ensures k in BumpRange(t, key, r).keys <==> k in t.keys || k == key
    ensures Lookup(BumpRange(t, key, r), k) ==
      if k == key then Some(Plus(LookupOr(t, k, FloatRange(0.0, 0.0)), r)) else Lookup(t, k)
  {
    var v := if key in t.keys then Plus(LookupOr(t, key, FloatRange(0.0, 0.0)), r) else r;
    AssignThenLookup(t, key, v, k);
    AssignShape(t, key, v);
  }

  /** After merging range entries, a type's range is its old range (or the zero range) plus the sum of its entries. */
  lemma {:induction false} FoldRangesLookup(t: Table<DamageType, FloatRange>, es: seq<(DamageType, FloatRange)>, k: DamageType)
    requires Aligned(t)
    ensures Aligned(FoldRanges(t, es))
    ensures k in FoldRanges(t, es).keys <==> k in t.keys || Mentions(es, k)
    ensures Lookup(FoldRanges(t, es), k) ==
      if k in t.keys || Mentions(es, k) then Some(Plus(LookupOr(t, k, FloatRange(0.0, 0.0)), RangeSumFor(es, k)))
      else Lookup(t, k)
  {
    if |es| == 0 {
      FloatPlusAlgebra(LookupOr(t, k, FloatRange(0.0, 0.0)), FloatRange(0.0, 0.0), FloatRange(0.0, 0.0));
    } else {
      var init := es[..|es| - 1];
      var last := es[|es| - 1];
      var t' := FoldRanges(t, init);
      FoldRangesLookup(t, init, k);
      MentionsPrefix(es, k);
      BumpRangeLookup(t', last.0, last.1, k);
      var zero := FloatRange(0.0, 0.0);
      var base := LookupOr(t, k, zero);
      var before := RangeSumFor(init, k);
      if last.0 == k {
        assert RangeSumFor(es, k) == Plus(before, last.1);
        if !(k in t.keys || Mentions(init, k)) {
          RangeSumForUnmentioned(init, k);
          assert Lookup(FoldRanges(t, es), k) == Some(Plus(zero, last.1));
          assert base == zero;
          FloatPlusAlgebra(zero, zero, last.1);
        } else {
          assert Lookup(FoldRanges(t, es), k) == Some(Plus(Plus(base, before), last.1));
          FloatPlusAlgebra(base, before, last.1);
        }
      } else {
        assert RangeSumFor(es, k) == Plus(before, zero);
        FloatPlusAlgebra(before, zero, zero);
      }
    }
  }

  // ----- The damage calculation -----

  /** The calculated values of a context. */
  datatype Outcome = Outcome(finalDamage: real, isCriticalHit: bool, conditionsToApply: Table<Condition, StatsData>)

  /** The values of a newly constructed context. */
  const Fresh: Outcome := Outcome(0.0, false, Empty())

  /** A missing base damage counts as 0. */
  function BaseOf(d: AttackData, t: DamageType): real
  {
    LookupOr(d.baseDamageModifierByType, t, 0.0)
  }

  /** A missing damage range is null. */
  function RangeOf(d: AttackData, t: DamageType): Option<FloatRange>
  {
    Lookup(d.baseDamageRangeByType, t)
  }

  /** STRUE, and a type without an entry, use multiplier 1. */
  function MultiplierOf(d: AttackData, t: DamageType): real
  {
    if t == STRUE then 1.0 else LookupOr(d.damageMultiplierByType, t, 1.0)
  }

  /** One pass of the per-type loop: the running damage and the next roll position. */
  function TypeStep(d: AttackData, t: DamageType, acc: real, draws: nat -> real, pos: nat): (real, nat)
  {
    var base := BaseOf(d, t);
    var range := RangeOf(d, t);
    if range.None? && base == 0.0 then (acc, pos)
    else if range.None? then (acc + base * MultiplierOf(d, t), pos)
    else (acc + (base + draws(pos)) * MultiplierOf(d, t), pos + 1)
  }

  /** The per-type loop over the first `n` types of DamageTypes. */
  function DamageSum(d: AttackData, n: nat, acc: real, draws: nat -> real, pos: nat): (real, nat)
    requires n <= |DamageTypes|
  {
    if n == 0 then (acc, pos)
    else
      var (a, p) := DamageSum(d, n - 1, acc, draws, pos);
      TypeStep(d, DamageTypes[n - 1], a, draws, p)
  }

  /** The crit bonus, the overall flat and multiplicative terms, and the floor. */
  function Finish(d: AttackData, sum: real, crit: bool): real
  {
    (((if crit then sum * 1.5 else sum) + (d.overallDamageModifier - d.overallResistanceModifier)) *
      Max(d.overallDamageMultiplier - d.overallResistanceMultiplier, 0.0)).Floor as real
  }

  /** The chance of a condition, read through the indexer at the key's first occurrence. */
  function StatsOf(d: AttackData, k: Condition): StatsData
    requires Aligned(d.conditionStats) && k in d.conditionStats.keys
  {
    Lookup(d.conditionStats, k).value
  }

  /** One pass of the condition loop, for key `k`. */
  function StageStep(d: AttackData, k: Condition, staged: Table<Condition, StatsData>, draws: nat -> real, pos: nat): (Table<Condition, StatsData>, nat)
    requires Aligned(d.conditionStats) && k in d.conditionStats.keys
  {
    var stats := StatsOf(d, k);
    if stats.chance < 0.0 then (staged, pos)
    else if draws(pos) <= stats.chance && k !in staged.keys then (Assign(staged, k, stats), pos + 1)
    else (staged, pos + 1)
  }

  /** The condition loop over the first `n` keys of the definition's condition table. */
  function Stage(d: AttackData, n: nat, staged: Table<Condition, StatsData>, draws: nat -> real, pos: nat): (Table<Condition, StatsData>, nat)
    requires Aligned(d.conditionStats) && n <= |d.conditionStats.keys|
  {
    if n == 0 then (staged, pos)
    else
      var (s, p) := Stage(d, n - 1, staged, draws, pos);
      StageStep(d, d.conditionStats.keys[n - 1], s, draws, p)
  }

  /**
   * CalculateFinalValues: the context's new values and the next roll
   * position, given its values before the call.
   */
  function Calculate(d: AttackData, prior: Outcome, draws: nat -> real, pos: nat): (r: (Outcome, nat))
    requires WellFormed(d)
    ensures draws(pos) < d.dodgeChance ==> r == (prior, pos + 1)
    ensures draws(pos) >= d.dodgeChance ==>
      && (r.0.isCriticalHit <==> draws(pos) >= 1.0 - (d.baseCritChance + d.critChanceBonus))
      && r.0.finalDamage == r.0.finalDamage.Floor as real
  {
    var toHit := draws(pos);
    if toHit < d.dodgeChance then (prior, pos + 1)
    else
      var crit := toHit >= 1.0 - (d.baseCritChance + d.critChanceBonus);
      var (sum, p) := DamageSum(d, |DamageTypes|, prior.finalDamage, draws, pos + 1);
      var (staged, p') := Stage(d, |d.conditionStats.keys|, prior.conditionsToApply, draws, p);
      (Outcome(Finish(d, sum, crit), crit, staged), p')
  }

  // ----- Properties of the calculation -----

  /** How many of the first `n` types have a damage range, and so draw a roll. */
  function RangedCount(d: AttackData, n: nat): nat
    requires n <= |DamageTypes|
  {
    if n == 0 then 0
    else RangedCount(d, n - 1) + (if RangeOf(d, DamageTypes[n - 1]).Some? then 1 else 0)
  }

  /** What a type adds given the roll it would use: `(base + roll) * multiplier`, the roll counting only with a range. */
  function Term(d: AttackData, t: DamageType, roll: real): real
  {
    if RangeOf(d, t).Some? then (BaseOf(d, t) + roll) * MultiplierOf(d, t)
    else BaseOf(d, t) * MultiplierOf(d, t)
  }

  /** The plain sum over the first `n` types, the i-th ranged type using roll `pos + i`. */
  function TermSum(d: AttackData, n: nat, draws: nat -> real, pos: nat): real
    requires n <= |DamageTypes|
  {
    if n == 0 then 0.0
    else TermSum(d, n - 1, draws, pos) + Term(d, DamageTypes[n - 1], draws(pos + RangedCount(d, n - 1)))
  }

  /**
   * The per-type loop adds the plain sum of the terms, skipping a type only
   * where its term is zero anyway, and draws exactly one roll per ranged type,
   * in type order.
   */
  lemma {:induction false} DamageSumClosedForm(d: AttackData, n: nat, acc: real, draws: nat -> real, pos: nat)
    requires n <= |DamageTypes|
    ensures DamageSum(d, n, acc, draws, pos) == (acc + TermSum(d, n, draws, pos), pos + RangedCount(d, n))
  {
    if n > 0 {
      DamageSumClosedForm(d, n - 1, acc, draws, pos);
      TypeStepTerm(d, DamageTypes[n - 1], acc + TermSum(d, n - 1, draws, pos), draws, pos + RangedCount(d, n - 1));
    }
  }

  /** One pass adds the type's term and draws a roll exactly when the type has a range. */
  lemma TypeStepTerm(d: AttackData, t: DamageType, acc: real, draws: nat -> real, pos: nat)
    ensures TypeStep(d, t, acc, draws, pos) ==
      (acc + Term(d, t, draws(pos)), if RangeOf(d, t).Some? then pos + 1 else pos)
  {
    var m := MultiplierOf(d, t);
    if RangeOf(d, t).None? && BaseOf(d, t) == 0.0 {
      assert 0.0 * m == 0.0;
    }
  }

  /** A definition without any damage entry sums nothing and draws no roll. */
  lemma {:induction false} NoDamageEntries(d: AttackData, n: nat, acc: real, draws: nat -> real, pos: nat)
    requires n <= |DamageTypes|
    requires d.baseDamageRangeByType.keys == [] && d.baseDamageModifierByType.keys == []
    ensures DamageSum(d, n, acc, draws, pos) == (acc, pos)
  {
    if n > 0 {
      NoDamageEntries(d, n - 1, acc, draws, pos);
    }
  }

  /**
   * On a hit, a fresh context's damage is Finish applied to the plain sum of
   * the terms, their rolls following the to-hit roll:
   * floor((S * (crit ? 1.5 : 1) + (oDMod - oRMod)) * max(oDMult - oRMult, 0)).
   */
  lemma FreshHitDamage(d: AttackData, draws: nat -> real, pos: nat)
    requires WellFormed(d) && draws(pos) >= d.dodgeChance
    ensures Calculate(d, Fresh, draws, pos).0.finalDamage ==
      Finish(d, TermSum(d, |DamageTypes|, draws, pos + 1), draws(pos) >= 1.0 - (d.baseCritChance + d.critChanceBonus))
  {
    DamageSumClosedForm(d, |DamageTypes|, 0.0, draws, pos + 1);
    assert DamageSum(d, |DamageTypes|, 0.0, draws, pos + 1).0 == TermSum(d, |DamageTypes|, draws, pos + 1);
  }

  /** A miss leaves a fresh context with no damage, no crit and nothing staged, after one roll. */
  lemma FreshMiss(d: AttackData, draws: nat -> real, pos: nat)
    requires WellFormed(d) && draws(pos) < d.dodgeChance
    ensures Calculate(d, Fresh, draws, pos) == (Outcome(0.0, false, Empty()), pos + 1)
  {
  }

  /** An attack with no damage at all, and a defender whose flat resistance exceeds the attacker's bonus. */
  function ResistedAttack(): AttackData
  {
    AttackData("Tap", Empty(), Empty(), Empty(), Empty(), 0.0, 0.0, 0.0, 1.0, 1.0, 3.0, 0.0)
  }

  /** The final damage is not clamped at zero: flat resistance can make it negative. */
  lemma DamageCanBeNegative()
    ensures Calculate(ResistedAttack(), Fresh, (i: nat) => 0.5, 0).0.finalDamage == -2.0
  {
    var d := ResistedAttack();
    var draws := (i: nat) => 0.5;
    NoDamageEntries(d, |DamageTypes|, 0.0, draws, 1);
  }

  /** How many of the first `n` condition keys have a non-negative chance, and so draw a roll. */
  function EligibleCount(d: AttackData, n: nat): nat
    requires Aligned(d.conditionStats) && n <= |d.conditionStats.keys|
  {
    if n == 0 then 0
    else EligibleCount(d, n - 1) + (if StatsOf(d, d.conditionStats.keys[n - 1]).chance >= 0.0 then 1 else 0)
  }

  predicate NoDuplicates<K(==)>(s: seq<K>)
  {
    forall i, j :: 0 <= i < j < |s| ==> s[i] != s[j]
  }

  /** One pass of the condition loop draws a roll exactly when the chance is non-negative and keeps keys distinct. */
  lemma StageStepRolls(d: AttackData, key: Condition, staged: Table<Condition, StatsData>, draws: nat -> real, pos: nat)
    requires Aligned(d.conditionStats) && key in d.conditionStats.keys && Aligned(staged)
    ensures var (s, p) := StageStep(d, key, staged, draws, pos);
      && p == pos + (if StatsOf(d, key).chance >= 0.0 then 1 else 0)
      && Aligned(s)
      && (NoDuplicates(staged.keys) ==> NoDuplicates(s.keys))
  {
    AssignShape(staged, key, StatsOf(d, key));
  }

  /** One pass of the condition loop stages at most its own key, only if the key is new, with the definition's stats. */
  lemma StageStepKey(d: AttackData, key: Condition, staged: Table<Condition, StatsData>, draws: nat -> real, pos: nat, k: Condition)
    requires Aligned(d.conditionStats) && key in d.conditionStats.keys && Aligned(staged)
    ensures var s := StageStep(d, key, staged, draws, pos).0;
      var c := StatsOf(d, key).chance;
      && Aligned(s)
      && (k in staged.keys ==> k in s.keys && Lookup(s, k) == Lookup(staged, k))
      && (k != key ==> (k in s.keys <==> k in staged.keys))
      && (k == key && k !in staged.keys ==>
            (k in s.keys <==> c >= 0.0 && draws(pos) <= c) &&
            (k in s.keys ==> Lookup(s, k) == Lookup(d.conditionStats, k)))
  {
    AssignThenLookup(staged, key, StatsOf(d, key), k);
    AssignShape(staged, key, StatsOf(d, key));
  }

  /**
   * The condition loop draws one roll per key with a non-negative chance and
   * never stages a key twice.
   */
  lemma {:induction false} StageRolls(d: AttackData, n: nat, staged: Table<Condition, StatsData>, draws: nat -> real, pos: nat)
    requires Aligned(d.conditionStats) && n <= |d.conditionStats.keys| && Aligned(staged)
    ensures var (s, p) := Stage(d, n, staged, draws, pos);
      && p == pos + EligibleCount(d, n)
      && Aligned(s)
      && (NoDuplicates(staged.keys) ==> NoDuplicates(s.keys))
  {
    if n > 0 {
      StageRolls(d, n - 1, staged, draws, pos);
      var (s, p) := Stage(d, n - 1, staged, draws, pos);
      StageStepRolls(d, d.conditionStats.keys[n - 1], s, draws, p);
    }
  }

  /**
   * `s` keeps every staging of `staged` and stages, beyond them, only keys of
   * `keys`, each with the definition's stats.
   */
  predicate KeepsAndDraws(d: AttackData, keys: seq<Condition>, staged: Table<Condition, StatsData>, s: Table<Condition, StatsData>, k: Condition)
  {
    && (k in staged.keys ==> k in s.keys && Lookup(s, k) == Lookup(staged, k))
    && (k in s.keys && k !in staged.keys ==> k in keys && Lookup(s, k) == Lookup(d.conditionStats, k))
  }

  /** KeepsAndDraws extends over one more pass of the condition loop. */
  lemma KeepsAndDrawsStep(d: AttackData, keys: seq<Condition>, key: Condition,
                          staged: Table<Condition, StatsData>, s: Table<Condition, StatsData>, s': Table<Condition, StatsData>, k: Condition)
    requires KeepsAndDraws(d, keys, staged, s, k)
    requires k in s.keys ==> k in s'.keys && Lookup(s', k) == Lookup(s, k)
    requires k != key ==> (k in s'.keys <==> k in s.keys)
    requires k == key && k !in s.keys && k in s'.keys ==> Lookup(s', k) == Lookup(d.conditionStats, k)
    ensures KeepsAndDraws(d, keys + [key], staged, s', k)
  {
  }

  /**
   * The condition loop leaves earlier stagings alone and stages only keys of
   * the definition, each with the definition's stats.
   */
  lemma {:induction false} StageKey(d: AttackData, n: nat, staged: Table<Condition, StatsData>, draws: nat -> real, pos: nat, k: Condition)
    requires Aligned(d.conditionStats) && n <= |d.conditionStats.keys| && Aligned(staged)
    ensures Aligned(Stage(d, n, staged, draws, pos).0)
    ensures KeepsAndDraws(d, d.conditionStats.keys[..n], staged, Stage(d, n, staged, draws, pos).0, k)
  {
    if n > 0 {
      StageKey(d, n - 1, staged, draws, pos, k);
      var before := Stage(d, n - 1, staged, draws, pos);
      var key := d.conditionStats.keys[n - 1];
      StageStepKey(d, key, before.0, draws, before.1, k);
      KeepsAndDrawsStep(d, d.conditionStats.keys[..n - 1], key, staged, before.0, StageStep(d, key, before.0, draws, before.1).0, k);
      assert d.conditionStats.keys[..n] == d.conditionStats.keys[..n - 1] + [key];
    }
  }

  /** The occurrence of `k` at position `i` has a non-negative chance and its roll is at most that chance. */
  predicate RollSucceeds(d: AttackData, i: nat, k: Condition, draws: nat -> real, pos: nat)
    requires Aligned(d.conditionStats) && i < |d.conditionStats.keys|
  {
    var c := StatsOf(d, d.conditionStats.keys[i]).chance;
    d.conditionStats.keys[i] == k && c >= 0.0 && draws(pos + EligibleCount(d, i)) <= c
  }

  /**
   * A key not staged before the loop is staged by it exactly when one of its
   * occurrences has a non-negative chance and the roll drawn for that
   * occurrence is at most the chance.
   */
  lemma {:induction false} StageIff(d: AttackData, n: nat, staged: Table<Condition, StatsData>, draws: nat -> real, pos: nat, k: Condition)
    requires Aligned(d.conditionStats) && n <= |d.conditionStats.keys| && Aligned(staged) && k !in staged.keys
    ensures k in Stage(d, n, staged, draws, pos).0.keys <==> exists i :: 0 <= i < n && RollSucceeds(d, i, k, draws, pos)
  {
    if n > 0 {
      StageIff(d, n - 1, staged, draws, pos, k);
      StageRolls(d, n - 1, staged, draws, pos);
      StageKey(d, n - 1, staged, draws, pos, k);
      var (s, p) := Stage(d, n - 1, staged, draws, pos);
      var key := d.conditionStats.keys[n - 1];
      StageStepKey(d, key, s, draws, p, k);
      var before := exists i :: 0 <= i < n - 1 && RollSucceeds(d, i, k, draws, pos);
      var now := RollSucceeds(d, n - 1, k, draws, pos);
      assert (exists i :: 0 <= i < n && RollSucceeds(d, i, k, draws, pos)) <==> before || now by {
        if now {
          assert 0 <= n - 1 < n && RollSucceeds(d, n - 1, k, draws, pos);
        }
        if before {
          var i :| 0 <= i < n - 1 && RollSucceeds(d, i, k, draws, pos);
          assert 0 <= i < n && RollSucceeds(d, i, k, draws, pos);
        }
      }
      assert k in Stage(d, n, staged, draws, pos).0.keys <==> k in s.keys || now;
    }
  }
}
