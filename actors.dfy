/**
 * Battle participants (Assets/Scripts/Combat/EnemyBattleActor.cs, with the
 * player side of Assets/Scripts/Combat/BattleActor.cs) and the action a turn
 * resolves (Assets/Scripts/Combat/PlayerAction.cs).
 *
 * One class stands for both kinds of actor; `isPlayerControlled` tells them
 * apart. Each actor owns the three components its prefab requires: Health,
 * Attack and Resistance. Actor identity is the integer `id`, which the
 * Attack and Resistance components carry as their owner.
 */
module Actors {
  import opened Wrappers
  import opened Tables
  import opened Ranges
  import opened Damage
  import opened Modifiers
  import opened HealthComponent
  import opened Progression
  import opened Party

  datatype ActionType = NoAction | AttackAction | UseItemAction | UseAbilityAction | DefendAction | RunAction

  /** A chosen action: its kind, the attack to use and the target, either of which may be missing. */
  datatype PlayerAction = PlayerAction(actionType: ActionType, attackDefinition: Option<AttackData>, target: Option<BattleActor>)

  /** The constructor for any action other than an attack: no definition, no target. */
  function ActionOf(t: ActionType): PlayerAction
  {
    PlayerAction(t, None, None)
  }

  /** Every attack an enemy config lists is one the calculation accepts. */
  predicate ConfigAttacksWellFormed(config: EnemyConfig)
  {
    forall i :: 0 <= i < |config.attacks| && config.attacks[i].Some? ==> WellFormed(config.attacks[i].value)
  }

  /** An actor's config slot: empty, or a config whose attacks are all well formed. */
  type ConfigSlot = c: Option<EnemyConfig> | c.Some? ==> ConfigAttacksWellFormed(c.value) witness None

  /** An action whose attack definition, when present, is well formed. */
  type SoundAction = a: PlayerAction | a.attackDefinition.Some? ==> WellFormed(a.attackDefinition.value)
    witness PlayerAction(NoAction, None, None)

  /**
   * What an actor prefab's Attack and Resistance components serialise: the
   * modifier tables, and the scalars as set in the inspector.
   */
  datatype Prefab = Prefab(
    ranges: Table<DamageType, FloatRange>, flat: Table<DamageType, real>, mult: Table<DamageType, real>,
    overallDamageModifier: real, overallDamageMultiplier: real, criticalChanceBonus: real,
    resistFlat: Table<DamageType, real>, resistMult: Table<DamageType, real>,
    overallResistanceValue: real, overallResistanceMultiplier: real, dodgeChanceModifier: real)

  class BattleActor {
    const id: int
    const isPlayerControlled: bool
    const health: Health
    const attack: Attack
    const resistance: Resistance
    /** BattleActor._isAlive: the player side's liveness, set only by a death notification. */
    var aliveFlag: bool
    var currentSpeed: int
    /** The enemy side's config, missing until Initialize. */
    var enemyConfig: ConfigSlot
    /** The player side's attack list. */
    var attacks: seq<AttackData>

    /** A freshly instantiated prefab with its own components and their declared defaults. */
    constructor (id: int, isPlayerControlled: bool, prefab: Prefab)
      ensures this.id == id && this.isPlayerControlled == isPlayerControlled
      ensures fresh(health) && fresh(attack) && fresh(resistance)
      ensures health.maxHealth == 100.0 && health.currentHealth == 100.0 && !health.initialized
      ensures attack.owner == id && attack.rangeDamageModifiers == prefab.ranges
      ensures attack.flatDamageModifiers == prefab.flat && attack.multDamageModifiers == prefab.mult
      ensures attack.overallDamageModifier == prefab.overallDamageModifier
      ensures attack.overallDamageMultiplier == prefab.overallDamageMultiplier
      ensures attack.criticalChanceBonus == prefab.criticalChanceBonus
      ensures resistance.owner == id && !resistance.initialized
      ensures resistance.flatResistanceModifiers == prefab.resistFlat && resistance.multResistanceModifiers == prefab.resistMult
      ensures resistance.overallResistanceValue == prefab.overallResistanceValue
      ensures resistance.overallResistanceMultiplier == prefab.overallResistanceMultiplier
      ensures resistance.dodgeChanceModifier == prefab.dodgeChanceModifier
      ensures aliveFlag && currentSpeed == (if isPlayerControlled then 0 else 5)
      ensures enemyConfig == None && attacks == []
    {
      this.id := id;
      this.isPlayerControlled := isPlayerControlled;
      health := new Health();
      attack := new Attack(id, prefab.ranges, prefab.flat, prefab.mult,
                           prefab.overallDamageModifier, prefab.overallDamageMultiplier, prefab.criticalChanceBonus);
      resistance := new Resistance(id, prefab.resistFlat, prefab.resistMult,
                                   prefab.overallResistanceValue, prefab.overallResistanceMultiplier, prefab.dodgeChanceModifier);
      aliveFlag := true;
      currentSpeed := if isPlayerControlled then 0 else 5;
      enemyConfig := None;
      attacks := [];
    }

    /** An enemy is alive while its health is positive; a player actor while its flag is set. */
    predicate IsAlive()
      reads this, health
    {
      if isPlayerControlled then aliveFlag else health.IsAlive()
    }

    /** BattleActor.Initialize(config) for a hero: attacks, health, resistances and speed from the config. */
    method InitializeHero(config: HeroConfig)
      modifies this, health, resistance
      ensures attacks == config.attacks && currentSpeed == config.baseSpeed
      ensures aliveFlag == old(aliveFlag) && enemyConfig == old(enemyConfig)
      ensures health.initialized && resistance.initialized
      ensures old(health.initialized) ==>
        health.maxHealth == old(health.maxHealth) && health.currentHealth == old(health.currentHealth)
      ensures !old(health.initialized) ==>
        health.maxHealth == config.baseHealth as real && health.currentHealth == config.baseHealth as real
      ensures old(resistance.initialized) ==>
        resistance.flatResistanceModifiers == old(resistance.flatResistanceModifiers)
        && resistance.multResistanceModifiers == old(resistance.multResistanceModifiers)
      ensures !old(resistance.initialized) ==>
        resistance.flatResistanceModifiers == config.flatResistances
        && resistance.multResistanceModifiers == config.resistanceMultipliers
    {
      attacks := config.attacks;
      health.Initialize(config.baseHealth);
      resistance.Initialize(config.flatResistances, config.resistanceMultipliers);
      currentSpeed := config.baseSpeed;
    }

    /** EnemyBattleActor.Initialize: remembers the config, health from its maxHealth, speed from its baseSpeed. */
    method InitializeEnemy(config: EnemyConfig)
      requires ConfigAttacksWellFormed(config)
      modifies this, health
      ensures enemyConfig == Some(config) && currentSpeed == config.baseSpeed
      ensures aliveFlag == old(aliveFlag) && attacks == old(attacks)
      ensures health.initialized
      ensures old(health.initialized) ==>
        health.maxHealth == old(health.maxHealth) && health.currentHealth == old(health.currentHealth)
      ensures !old(health.initialized) ==>
        health.maxHealth == config.maxHealth as real && health.currentHealth == config.maxHealth as real
    {
      enemyConfig := Some(config);
      health.Initialize(config.maxHealth);
      currentSpeed := config.baseSpeed;
    }

    /**
     * The enemy AI: the config's first attack aimed at the given player when
     * that attack is set, a Defend action with neither definition nor target
     * when the config or the attack is missing, and IndexOutOfRange (a
     * Failure) for a config with an empty attack list.
     */
    function ChooseAIAction(playerTarget: BattleActor): (r: Result<SoundAction>)
      reads this
      ensures r.Failure? <==> enemyConfig.Some? && |enemyConfig.value.attacks| == 0
      ensures r.Success? ==> r.value.actionType == AttackAction || r.value == ActionOf(DefendAction)
      ensures r.Success? && r.value.actionType == AttackAction ==>
        && enemyConfig.Some? && r.value.attackDefinition == enemyConfig.value.attacks[0]
        && r.value.attackDefinition.Some? && r.value.target == Some(playerTarget)
      ensures r.Success? && enemyConfig.Some? && enemyConfig.value.attacks[0].Some? ==> r.value.actionType == AttackAction
    {
      if enemyConfig.None? then Success(ActionOf(DefendAction))
      else if |enemyConfig.value.attacks| == 0 then Failure("index out of range")
      else if enemyConfig.value.attacks[0].Some? then
        Success(PlayerAction(AttackAction, enemyConfig.value.attacks[0], Some(playerTarget)))
      else Success(ActionOf(DefendAction))
    }

    /** TakeDamage, delegated unchanged to the Health component. */
    method TakeDamage(damage: real)
      modifies health
      ensures health.currentHealth == Damaged(old(health.currentHealth), damage)
      ensures health.maxHealth == old(health.maxHealth) && health.initialized == old(health.initialized)
      ensures !isPlayerControlled ==> (IsAlive() <==> damage < old(health.currentHealth))
      ensures isPlayerControlled ==> IsAlive() == old(IsAlive())
    {
      health.TakeDamage(damage);
    }

    /** Heal, delegated unchanged to the Health component. */
    method Heal(amount: real)
      modifies health
      ensures health.currentHealth == Healed(old(health.currentHealth), amount, health.maxHealth)
      ensures health.maxHealth == old(health.maxHealth) && health.initialized == old(health.initialized)
    {
      health.Heal(amount);
    }
  }
}
