/**
 * One attack from start to finish (Assets/Scripts/Combat/CombatManager.cs):
 * a context over a copy of the attack definition, the attack event's
 * listeners, then the defend event's listeners, then the calculation, and
 * finally the defender's TakeDamage with the calculated damage.
 *
 * A raised event calls its subscribers in subscription order; each event is
 * modelled by the sequence of its subscribers.
 */
module Combat {
  import opened Wrappers
  import opened Tables
  import opened Damage
  import opened CalculationContext
  import opened Modifiers
  import opened HealthComponent

  /** The definition after the attack event: each subscribed Attack, in order. */
  function OffenseAll(d: AttackData, attacker: int, offense: seq<Attack>): AttackData
  {
    if |offense| == 0 then d
    else
      var before := OffenseAll(d, attacker, offense[..|offense| - 1]);
      var a := offense[|offense| - 1];
      if a.owner == attacker then a.Applied(before) else before
  }

  /** The definition after the defend event: each subscribed Resistance, in order. */
  function DefenseAll(d: AttackData, defender: int, defense: seq<Resistance>): AttackData
    reads defense
  {
    if |defense| == 0 then d
    else
      var before := DefenseAll(d, defender, defense[..|defense| - 1]);
      var r := defense[|defense| - 1];
      if r.owner == defender then r.Applied(before) else before
  }

  /** The definition the calculation sees. */
  function Resolved(d: AttackData, attacker: int, defender: int, offense: seq<Attack>, defense: seq<Resistance>): AttackData
    reads defense
  {
    DefenseAll(OffenseAll(d, attacker, offense), defender, defense)
  }

  /** Every listener keeps the definition's tables aligned, and touches only the fields its side owns. */
  lemma {:induction false} OffenseAllShape(d: AttackData, attacker: int, offense: seq<Attack>)
    requires WellFormed(d)
    ensures var o := OffenseAll(d, attacker, offense);
      && WellFormed(o)
      && o.dodgeChance == d.dodgeChance && o.baseCritChance == d.baseCritChance
      && o.overallResistanceModifier == d.overallResistanceModifier
      && o.overallResistanceMultiplier == d.overallResistanceMultiplier
      && o.conditionStats == d.conditionStats
  {
    if |offense| > 0 {
      var before := OffenseAll(d, attacker, offense[..|offense| - 1]);
      OffenseAllShape(d, attacker, offense[..|offense| - 1]);
      var a := offense[|offense| - 1];
      OffenseEffect(before, a.rangeDamageModifiers, a.flatDamageModifiers, a.multDamageModifiers,
                    a.criticalChanceBonus, a.overallDamageModifier, a.overallDamageMultiplier, PHYSICAL);
    }
  }

  lemma {:induction false} DefenseAllShape(d: AttackData, defender: int, defense: seq<Resistance>)
    requires WellFormed(d)
    ensures var o := DefenseAll(d, defender, defense);
      && WellFormed(o)
      && o.baseDamageRangeByType == d.baseDamageRangeByType
      && o.baseCritChance == d.baseCritChance && o.critChanceBonus == d.critChanceBonus
      && o.overallDamageModifier == d.overallDamageModifier
      && o.overallDamageMultiplier == d.overallDamageMultiplier
      && o.conditionStats == d.conditionStats
  {
    if |defense| > 0 {
      var before := DefenseAll(d, defender, defense[..|defense| - 1]);
      DefenseAllShape(d, defender, defense[..|defense| - 1]);
      var r := defense[|defense| - 1];
      DefenseEffect(before, r.flatResistanceModifiers, r.multResistanceModifiers,
                    r.dodgeChanceModifier, r.overallResistanceValue, r.overallResistanceMultiplier, PHYSICAL);
    }
  }

  /** Listeners that belong to neither actor leave the definition as it was copied. */
  lemma {:induction false} UninvolvedListeners(d: AttackData, attacker: int, defender: int, offense: seq<Attack>, defense: seq<Resistance>)
    requires forall i :: 0 <= i < |offense| ==> offense[i].owner != attacker
    requires forall i :: 0 <= i < |defense| ==> defense[i].owner != defender
    ensures Resolved(d, attacker, defender, offense, defense) == d
  {
    NoOwnOffense(d, attacker, offense);
    NoOwnDefense(OffenseAll(d, attacker, offense), defender, defense);
  }

  lemma {:induction false} NoOwnOffense(d: AttackData, attacker: int, offense: seq<Attack>)
    requires forall i :: 0 <= i < |offense| ==> offense[i].owner != attacker
    ensures OffenseAll(d, attacker, offense) == d
  {
    if |offense| > 0 {
      NoOwnOffense(d, attacker, offense[..|offense| - 1]);
    }
  }

  lemma {:induction false} NoOwnDefense(d: AttackData, defender: int, defense: seq<Resistance>)
    requires forall i :: 0 <= i < |defense| ==> defense[i].owner != defender
    ensures DefenseAll(d, defender, defense) == d
  {
    if |defense| > 0 {
      NoOwnDefense(d, defender, defense[..|defense| - 1]);
    }
  }

  /** The attack event: every subscribed Attack's listener, in subscription order. */
  method RaiseAttackEvent(context: CombatCalculationContext, offense: seq<Attack>)
    requires WellFormed(context.definition)
    modifies context
    ensures context.definition == OffenseAll(old(context.definition), context.attacker, offense)
    ensures context.Values() == old(context.Values())
  {
    ghost var d0 := context.definition;
    for i := 0 to |offense|
      invariant context.definition == OffenseAll(d0, context.attacker, offense[..i])
      invariant context.Values() == old(context.Values())
    {
      OffenseAllShape(d0, context.attacker, offense[..i]);
      offense[i].ApplyOffensiveMods(context);
      assert offense[..i + 1][..i] == offense[..i];
    }
    assert offense[..|offense|] == offense;
  }

  /** The defend event: every subscribed Resistance's listener, in subscription order. */
  method RaiseDefendEvent(context: CombatCalculationContext, defense: seq<Resistance>)
    requires WellFormed(context.definition)
    modifies context
    ensures context.definition == DefenseAll(old(context.definition), context.defender, defense)
    ensures context.Values() == old(context.Values())
  {
    ghost var d0 := context.definition;
    for i := 0 to |defense|
      invariant context.definition == DefenseAll(d0, context.defender, defense[..i])
      invariant context.Values() == old(context.Values())
    {
      DefenseAllShape(d0, context.defender, defense[..i]);
      defense[i].ApplyDefensiveMods(context);
      assert defense[..i + 1][..i] == defense[..i];
    }
    assert defense[..|defense|] == defense;
  }

  /**
   * PerformAttack. The rolls come from `draws` starting at `pos`; `next` is
   * the position after the last roll used. The template definition is a
   * value and is never changed; nothing but the defender's health changes,
   * and it takes the calculated damage even when that is zero or negative.
   */
  method PerformAttack(attacker: int, defender: int, attackDefinition: AttackData,
                       offense: seq<Attack>, defense: seq<Resistance>, defenderHealth: Health,
                       draws: nat -> real, pos: nat)
    returns (context: CombatCalculationContext, next: nat)
    requires WellFormed(attackDefinition)
    modifies defenderHealth
    ensures fresh(context)
    ensures context.attacker == attacker && context.defender == defender
    ensures context.definition == Resolved(attackDefinition, attacker, defender, offense, defense)
    ensures WellFormed(context.definition)
    ensures (context.Values(), next) == Calculate(context.definition, Fresh, draws, pos)
    ensures defenderHealth.currentHealth == Damaged(old(defenderHealth.currentHealth), context.finalDamage)
    ensures defenderHealth.maxHealth == old(defenderHealth.maxHealth)
  {
    context := new CombatCalculationContext(attacker, defender, attackDefinition);
    RaiseAttackEvent(context, offense);
    OffenseAllShape(attackDefinition, attacker, offense);
    RaiseDefendEvent(context, defense);
    DefenseAllShape(OffenseAll(attackDefinition, attacker, offense), defender, defense);
    next := context.CalculateFinalValues(draws, pos);
    defenderHealth.TakeDamage(context.finalDamage);
  }

  /** The damage PerformAttack deals, as a function of its inputs. */
  function AttackDamage(attacker: int, defender: int, attackDefinition: AttackData,
                        offense: seq<Attack>, defense: seq<Resistance>, draws: nat -> real, pos: nat): (r: (real, nat))
    requires WellFormed(attackDefinition)
    reads defense
    ensures r.0 == r.0.Floor as real
    ensures draws(pos) < Resolved(attackDefinition, attacker, defender, offense, defense).dodgeChance ==> r == (0.0, pos + 1)
  {
    OffenseAllShape(attackDefinition, attacker, offense);
    DefenseAllShape(OffenseAll(attackDefinition, attacker, offense), defender, defense);
    var c := Calculate(Resolved(attackDefinition, attacker, defender, offense, defense), Fresh, draws, pos);
    (c.0.finalDamage, c.1)
  }
}
