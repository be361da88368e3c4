/**
 * CombatCalculationContext: the mutable record of one attack
 * (Assets/Scripts/Combat/CombatCalculationContext.cs). The attacker and
 * defender are identified by actor ids; the definition is the working copy
 * that the modifier listeners change before the calculation runs.
 */
module CalculationContext {
  import opened Wrappers
  import opened Tables
  import opened Conditions
  import opened Damage

  class CombatCalculationContext {
    const attacker: int
    const defender: int
    var definition: AttackData
    var finalDamage: real
    var isCriticalHit: bool
    var conditionsToApply: Table<Condition, StatsData>

    /** The calculated values, as one value. */
    function Values(): Outcome
      reads this
    {
      Outcome(finalDamage, isCriticalHit, conditionsToApply)
    }

    /** A new context: no damage, no crit, nothing staged. */
    constructor (attacker: int, defender: int, definition: AttackData)
      ensures this.attacker == attacker && this.defender == defender && this.definition == definition
      ensures Values() == Fresh
    {
      this.attacker := attacker;
      this.defender := defender;
      this.definition := definition;
      finalDamage := 0.0;
      isCriticalHit := false;
      conditionsToApply := Empty();
    }

    /**
     * CalculateFinalValues: reads rolls from `draws` starting at `pos` and
     * returns the position after the last roll it used.
     */
    method CalculateFinalValues(draws: nat -> real, pos: nat) returns (next: nat)
      requires WellFormed(definition)
      modifies this
      ensures definition == old(definition)
      ensures (Values(), next) == Calculate(definition, old(Values()), draws, pos)
    {
      var toHit := draws(pos);
      next := pos + 1;
      if toHit < definition.dodgeChance {
        return;
      }
      isCriticalHit := toHit >= 1.0 - (definition.baseCritChance + definition.critChanceBonus);
      var sumEnd := SumDamageTypes(draws, next);
      finalDamage := Finish(definition, finalDamage, isCriticalHit);
      next := StageConditions(draws, sumEnd);
    }

    /** The per-type loop: adds each type's damage to finalDamage in DamageTypes order. */
    method SumDamageTypes(draws: nat -> real, pos: nat) returns (next: nat)
      modifies this
      ensures definition == old(definition) && isCriticalHit == old(isCriticalHit)
      ensures conditionsToApply == old(conditionsToApply)
      ensures (finalDamage, next) == DamageSum(definition, |DamageTypes|, old(finalDamage), draws, pos)
    {
      next := pos;
      for i := 0 to |DamageTypes|
        invariant definition == old(definition) && isCriticalHit == old(isCriticalHit)
        invariant conditionsToApply == old(conditionsToApply)
        invariant (finalDamage, next) == DamageSum(definition, i, old(finalDamage), draws, pos)
      {
        next := AddTypeDamage(DamageTypes[i], draws, next);
      }
    }

    /** One iteration of the per-type loop: one type's base damage, ranged roll and multiplier. */
    method AddTypeDamage(damageType: DamageType, draws: nat -> real, pos: nat) returns (next: nat)
      modifies this
      ensures definition == old(definition) && isCriticalHit == old(isCriticalHit)
      ensures conditionsToApply == old(conditionsToApply)
      ensures (finalDamage, next) == TypeStep(definition, damageType, old(finalDamage), draws, pos)
    {
      next := pos;
      ghost var expected := TypeStep(definition, damageType, finalDamage, draws, pos);
      var baseDamage := LookupOr(definition.baseDamageModifierByType, damageType, 0.0);
      var damageRange := Lookup(definition.baseDamageRangeByType, damageType);
      var multi := if damageType == STRUE then 1.0 else LookupOr(definition.damageMultiplierByType, damageType, 1.0);
      if damageRange.None? {
        if baseDamage == 0.0 {
          assert expected.0 == finalDamage && expected.1 == pos;
          return;
        }
        assert baseDamage * multi == BaseOf(definition, damageType) * MultiplierOf(definition, damageType);
        assert expected.0 == finalDamage + baseDamage * multi && expected.1 == pos;
      } else {
        baseDamage := baseDamage + draws(next);
        assert baseDamage * multi == (BaseOf(definition, damageType) + draws(pos)) * MultiplierOf(definition, damageType);
        assert expected.0 == finalDamage + baseDamage * multi && expected.1 == pos + 1;
        next := next + 1;
      }
      finalDamage := finalDamage + baseDamage * multi;
      assert expected.1 == next;
      assert expected.0 == finalDamage;
    }

    /** The condition loop: stages each condition whose roll succeeds, once per key. */
    method StageConditions(draws: nat -> real, pos: nat) returns (next: nat)
      requires Aligned(definition.conditionStats)
      modifies this
      ensures definition == old(definition) && isCriticalHit == old(isCriticalHit)
      ensures finalDamage == old(finalDamage)
      ensures (conditionsToApply, next) ==
        Stage(definition, |definition.conditionStats.keys|, old(conditionsToApply), draws, pos)
    {
      next := pos;
      var keys := definition.conditionStats.keys;
      var i := 0;
      while i < |keys|
        invariant 0 <= i <= |keys|
        invariant definition == old(definition) && isCriticalHit == old(isCriticalHit)
        invariant finalDamage == old(finalDamage)
        invariant (conditionsToApply, next) == Stage(definition, i, old(conditionsToApply), draws, pos)
      {
        var key := keys[i];
        var stats := Lookup(definition.conditionStats, key).value;
        if stats.chance >= 0.0 {
          var toApply := draws(next);
          next := next + 1;
          if toApply <= stats.chance {
            if key !in conditionsToApply.keys {
              conditionsToApply := Assign(conditionsToApply, key, stats);
            }
          }
        }
        i := i + 1;
      }
    }
  }
}
