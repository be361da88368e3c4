/**
 * The attacker's and the defender's modifier components
 * (Assets/Scripts/Combat/Attack.cs, Assets/Scripts/Combat/Resistance.cs).
 * Each listens to a calculation event and, when the context names its owner
 * as attacker (defender), merges its tables into the context's working
 * definition and adds its scalar values. The object identity check against
 * `gameObject` is an actor id comparison.
 */
module Modifiers {
  import opened Wrappers
  import opened Tables
  import opened Ranges
  import opened Damage
  import opened CalculationContext

  /**
   * The definition after one attacker's modifiers: every merge adds, the
   * three attacker-side scalars grow by the component's values, and the
   * dodge chance, the base crit chance, the defender-side fields and the
   * conditions are untouched.
   */
  function Offense(d: AttackData, ranges: Table<DamageType, FloatRange>, flat: Table<DamageType, real>,
                   mult: Table<DamageType, real>, critBonus: real, damageMod: real, damageMult: real): (r: AttackData)
    ensures r.critChanceBonus == d.critChanceBonus + critBonus
    ensures r.overallDamageModifier == d.overallDamageModifier + damageMod
    ensures r.overallDamageMultiplier == d.overallDamageMultiplier + damageMult
    ensures r.dodgeChance == d.dodgeChance && r.baseCritChance == d.baseCritChance
    ensures r.overallResistanceModifier == d.overallResistanceModifier
    ensures r.overallResistanceMultiplier == d.overallResistanceMultiplier
    ensures r.conditionStats == d.conditionStats && r.attackName == d.attackName
  {
    d.(baseDamageRangeByType := FoldRanges(d.baseDamageRangeByType, Pairs(ranges)),
       baseDamageModifierByType := FoldBump(d.baseDamageModifierByType, Pairs(flat), false, 0.0),
       damageMultiplierByType := FoldBump(d.damageMultiplierByType, Pairs(mult), false, 1.0),
       critChanceBonus := d.critChanceBonus + critBonus,
       overallDamageModifier := d.overallDamageModifier + damageMod,
       overallDamageMultiplier := d.overallDamageMultiplier + damageMult)
  }

  /**
   * The definition after one defender's modifiers: every table merge
   * subtracts, the three defender-side scalars grow by the component's
   * values, and the ranges, the crit fields and the attacker-side overall
   * fields are untouched.
   */
  function Defense(d: AttackData, flat: Table<DamageType, real>, mult: Table<DamageType, real>,
                   dodge: real, resistMod: real, resistMult: real): (r: AttackData)
    ensures r.dodgeChance == d.dodgeChance + dodge
    ensures r.overallResistanceModifier == d.overallResistanceModifier + resistMod
    ensures r.overallResistanceMultiplier == d.overallResistanceMultiplier + resistMult
    ensures r.baseDamageRangeByType == d.baseDamageRangeByType
    ensures r.baseCritChance == d.baseCritChance && r.critChanceBonus == d.critChanceBonus
    ensures r.overallDamageModifier == d.overallDamageModifier
    ensures r.overallDamageMultiplier == d.overallDamageMultiplier
    ensures r.conditionStats == d.conditionStats && r.attackName == d.attackName
  {
    d.(baseDamageModifierByType := FoldBump(d.baseDamageModifierByType, Pairs(flat), true, 0.0),
       damageMultiplierByType := FoldBump(d.damageMultiplierByType, Pairs(mult), true, 1.0),
       dodgeChance := d.dodgeChance + dodge,
       overallResistanceModifier := d.overallResistanceModifier + resistMod,
       overallResistanceMultiplier := d.overallResistanceMultiplier + resistMult)
  }

  /**
   * What an attacker's merge does to each damage type `k`: a flat entry adds
   * to the base and a multiplier entry to the multiplier, a missing base
   * reading as 0 and a missing multiplier as 1; a type is listed afterwards
   * exactly when it was before or some entry mentions it, and every table
   * stays aligned.
   */
  lemma OffenseEffect(d: AttackData, ranges: Table<DamageType, FloatRange>, flat: Table<DamageType, real>,
                      mult: Table<DamageType, real>, critBonus: real, damageMod: real, damageMult: real, k: DamageType)
    requires WellFormed(d)
    ensures var o := Offense(d, ranges, flat, mult, critBonus, damageMod, damageMult);
      && WellFormed(o)
      && (k in o.baseDamageModifierByType.keys <==> k in d.baseDamageModifierByType.keys || Mentions(Pairs(flat), k))
      && LookupOr(o.baseDamageModifierByType, k, 0.0) == LookupOr(d.baseDamageModifierByType, k, 0.0) + SumFor(Pairs(flat), k)
      && (k in o.damageMultiplierByType.keys <==> k in d.damageMultiplierByType.keys || Mentions(Pairs(mult), k))
      && LookupOr(o.damageMultiplierByType, k, 1.0) == LookupOr(d.damageMultiplierByType, k, 1.0) + SumFor(Pairs(mult), k)
  {
    FoldRangesLookup(d.baseDamageRangeByType, Pairs(ranges), k);
    FoldBumpShape(d.baseDamageModifierByType, Pairs(flat), false, 0.0, k);
    FoldBumpValue(d.baseDamageModifierByType, Pairs(flat), false, 0.0, k);
    FoldBumpShape(d.damageMultiplierByType, Pairs(mult), false, 1.0, k);
    FoldBumpValue(d.damageMultiplierByType, Pairs(mult), false, 1.0, k);
  }

  /**
   * What an attacker's merge does to the range of damage type `k`: a range
   * entry widens an existing range componentwise, a missing one is inserted
   * as-is, and a type no entry mentions keeps its range.
   */
  lemma OffenseRangeEffect(d: AttackData, ranges: Table<DamageType, FloatRange>, flat: Table<DamageType, real>,
                           mult: Table<DamageType, real>, critBonus: real, damageMod: real, damageMult: real, k: DamageType)
    requires Aligned(d.baseDamageRangeByType)
    ensures var o := Offense(d, ranges, flat, mult, critBonus, damageMod, damageMult);
      && Aligned(o.baseDamageRangeByType)
      && Lookup(o.baseDamageRangeByType, k) ==
           (if k in d.baseDamageRangeByType.keys || Mentions(Pairs(ranges), k)
            then Some(Plus(LookupOr(d.baseDamageRangeByType, k, FloatRange(0.0, 0.0)), RangeSumFor(Pairs(ranges), k)))
            else Lookup(d.baseDamageRangeByType, k))
  {
    FoldRangesLookup(d.baseDamageRangeByType, Pairs(ranges), k);
  }

  /**
   * What a defender's merge does to each damage type `k`: a flat entry is
   * subtracted from the base and a multiplier entry from the multiplier, a
   * missing base reading as 0 and a missing multiplier as 1; a type is listed
   * afterwards exactly when it was before or some entry mentions it, and
   * every table stays aligned.
   */
  lemma DefenseEffect(d: AttackData, flat: Table<DamageType, real>, mult: Table<DamageType, real>,
                      dodge: real, resistMod: real, resistMult: real, k: DamageType)
    requires WellFormed(d)
    ensures var o := Defense(d, flat, mult, dodge, resistMod, resistMult);
      && WellFormed(o)
      && (k in o.baseDamageModifierByType.keys <==> k in d.baseDamageModifierByType.keys || Mentions(Pairs(flat), k))
      && LookupOr(o.baseDamageModifierByType, k, 0.0) == LookupOr(d.baseDamageModifierByType, k, 0.0) - SumFor(Pairs(flat), k)
      && (k in o.damageMultiplierByType.keys <==> k in d.damageMultiplierByType.keys || Mentions(Pairs(mult), k))
      && LookupOr(o.damageMultiplierByType, k, 1.0) == LookupOr(d.damageMultiplierByType, k, 1.0) - SumFor(Pairs(mult), k)
  {
    FoldBumpShape(d.baseDamageModifierByType, Pairs(flat), true, 0.0, k);
    FoldBumpValue(d.baseDamageModifierByType, Pairs(flat), true, 0.0, k);
    FoldBumpShape(d.damageMultiplierByType, Pairs(mult), true, 1.0, k);
    FoldBumpValue(d.damageMultiplierByType, Pairs(mult), true, 1.0, k);
  }

  /** The range `foreach` of the attacker's merge, over a copy of the table. */
  method MergeRanges(table: Table<DamageType, FloatRange>, entries: seq<(DamageType, FloatRange)>)
    returns (merged: Table<DamageType, FloatRange>)
    ensures merged == FoldRanges(table, entries)
  {
    merged := table;
    for i := 0 to |entries|
      invariant merged == FoldRanges(table, entries[..i])
    {
      var entry := entries[i];
      if entry.0 in merged.keys {
        merged := Assign(merged, entry.0, Plus(LookupOr(merged, entry.0, FloatRange(0.0, 0.0)), entry.1));
      } else {
        merged := Assign(merged, entry.0, entry.1);
      }
      assert entries[..i + 1][..i] == entries[..i];
    }
    assert entries[..|entries|] == entries;
  }

  /**
   * A flat or multiplier `foreach`: each entry is added (subtracted when
   * `subtract` holds) to an existing value, or inserted as `start` plus
   * (minus) the entry: 0 for flat tables, 1 for multipliers.
   */
  method MergeValues(table: Table<DamageType, real>, entries: seq<(DamageType, real)>, subtract: bool, start: real)
    returns (merged: Table<DamageType, real>)
    ensures merged == FoldBump(table, entries, subtract, start)
  {
    merged := table;
    for i := 0 to |entries|
      invariant merged == FoldBump(table, entries[..i], subtract, start)
    {
      var entry := entries[i];
      assert entries[..i + 1][..i] == entries[..i];
      ghost var next := Bump(merged, entry.0, Signed(subtract, entry.1), start);
      assert FoldBump(table, entries[..i + 1], subtract, start) == next;
      if entry.0 in merged.keys {
        var current := LookupOr(merged, entry.0, 0.0);
        merged := Assign(merged, entry.0, if subtract then current - entry.1 else current + entry.1);
      } else {
        merged := Assign(merged, entry.0, if subtract then start - entry.1 else start + entry.1);
      }
      assert merged == next;
    }
    assert entries[..|entries|] == entries;
  }

  /** A modifier component that sits on the attacking actor. */
  class Attack {
    const owner: int
    const rangeDamageModifiers: Table<DamageType, FloatRange>
    const flatDamageModifiers: Table<DamageType, real>
    const multDamageModifiers: Table<DamageType, real>
    const overallDamageModifier: real
    const overallDamageMultiplier: real
    const criticalChanceBonus: real

    /**
     * The serialised tables and scalars as the prefab holds them; the
     * scalars' declared initial values are 1, 0.1 and 0.05.
     */
    constructor (owner: int, ranges: Table<DamageType, FloatRange>, flat: Table<DamageType, real>, mult: Table<DamageType, real>,
                 overallDamageModifier: real, overallDamageMultiplier: real, criticalChanceBonus: real)
      ensures this.owner == owner && rangeDamageModifiers == ranges
      ensures flatDamageModifiers == flat && multDamageModifiers == mult
      ensures this.overallDamageModifier == overallDamageModifier && this.overallDamageMultiplier == overallDamageMultiplier
      ensures this.criticalChanceBonus == criticalChanceBonus
    {
      this.owner := owner;
      rangeDamageModifiers := ranges;
      flatDamageModifiers := flat;
      multDamageModifiers := mult;
      this.overallDamageModifier := overallDamageModifier;
      this.overallDamageMultiplier := overallDamageMultiplier;
      this.criticalChanceBonus := criticalChanceBonus;
    }

    /** The definition this component turns `d` into when it is the attacker. */
    function Applied(d: AttackData): AttackData
    {
      Offense(d, rangeDamageModifiers, flatDamageModifiers, multDamageModifiers,
              criticalChanceBonus, overallDamageModifier, overallDamageMultiplier)
    }

    /** The listener: merges only when this component's owner is the context's attacker. */
    method ApplyOffensiveMods(context: CombatCalculationContext)
      requires WellFormed(context.definition)
      modifies context
      ensures context.definition ==
        if context.attacker == owner then Applied(old(context.definition)) else old(context.definition)
      ensures context.Values() == old(context.Values())
    {
      if context.attacker != owner {
        return;
      }
      var d := context.definition;
      var ranges := MergeRanges(d.baseDamageRangeByType, Pairs(rangeDamageModifiers));
      var flat := MergeValues(d.baseDamageModifierByType, Pairs(flatDamageModifiers), false, 0.0);
      var mult := MergeValues(d.damageMultiplierByType, Pairs(multDamageModifiers), false, 1.0);
      context.definition := d.(
        baseDamageRangeByType := ranges,
        baseDamageModifierByType := flat,
        damageMultiplierByType := mult,
        critChanceBonus := d.critChanceBonus + criticalChanceBonus,
        overallDamageModifier := d.overallDamageModifier + overallDamageModifier,
        overallDamageMultiplier := d.overallDamageMultiplier + overallDamageMultiplier);
    }
  }

  /** A modifier component that sits on the defending actor. */
  class Resistance {
    const owner: int
    var flatResistanceModifiers: Table<DamageType, real>
    var multResistanceModifiers: Table<DamageType, real>
    const overallResistanceValue: real
    const overallResistanceMultiplier: real
    const dodgeChanceModifier: real
    var initialized: bool

    /**
     * The serialised tables and scalars as the prefab holds them, not yet
     * initialised; the scalars' declared initial values are 1, 0.1 and 0.05.
     */
    constructor (owner: int, flat: Table<DamageType, real>, mult: Table<DamageType, real>,
                 overallResistanceValue: real, overallResistanceMultiplier: real, dodgeChanceModifier: real)
      ensures this.owner == owner && flatResistanceModifiers == flat && multResistanceModifiers == mult
      ensures this.overallResistanceValue == overallResistanceValue && this.overallResistanceMultiplier == overallResistanceMultiplier
      ensures this.dodgeChanceModifier == dodgeChanceModifier
      ensures !initialized
    {
      this.owner := owner;
      flatResistanceModifiers := flat;
      multResistanceModifiers := mult;
      this.overallResistanceValue := overallResistanceValue;
      this.overallResistanceMultiplier := overallResistanceMultiplier;
      this.dodgeChanceModifier := dodgeChanceModifier;
      initialized := false;
    }

    /** Installs the two tables on the first call; every later call does nothing. */
    method Initialize(flatResistances: Table<DamageType, real>, resistanceMultipliers: Table<DamageType, real>)
      modifies this
      ensures initialized
      ensures old(initialized) ==>
        flatResistanceModifiers == old(flatResistanceModifiers) && multResistanceModifiers == old(multResistanceModifiers)
      ensures !old(initialized) ==>
        flatResistanceModifiers == flatResistances && multResistanceModifiers == resistanceMultipliers
    {
      if !initialized {
        flatResistanceModifiers := flatResistances;
        multResistanceModifiers := resistanceMultipliers;
        initialized := true;
      }
    }

    /** The definition this component turns `d` into when it is the defender. */
    function Applied(d: AttackData): AttackData
      reads this
    {
      Defense(d, flatResistanceModifiers, multResistanceModifiers,
              dodgeChanceModifier, overallResistanceValue, overallResistanceMultiplier)
    }

    /** The listener: merges only when this component's owner is the context's defender. */
    method ApplyDefensiveMods(context: CombatCalculationContext)
      requires WellFormed(context.definition)
      modifies context
      ensures context.definition ==
        if context.defender == owner then Applied(old(context.definition)) else old(context.definition)
      ensures context.Values() == old(context.Values())
    {
      if context.defender != owner {
        return;
      }
      var d := context.definition;
      var flat := MergeValues(d.baseDamageModifierByType, Pairs(flatResistanceModifiers), true, 0.0);
      var mult := MergeValues(d.damageMultiplierByType, Pairs(multResistanceModifiers), true, 1.0);
      context.definition := d.(
        baseDamageModifierByType := flat,
        damageMultiplierByType := mult,
        dodgeChance := d.dodgeChance + dodgeChanceModifier,
        overallResistanceModifier := d.overallResistanceModifier + overallResistanceValue,
        overallResistanceMultiplier := d.overallResistanceMultiplier + overallResistanceMultiplier);
    }
  }
}
