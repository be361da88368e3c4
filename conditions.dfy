/**
 * Status conditions and their duration counters
 * (Assets/Scripts/States/Condition.cs, Assets/Scripts/Configs/ConditionDictionaries.cs).
 *
 * C# derives ConditionStats and ActiveCondition from HasDuration; each class
 * here carries its own copy of the inherited `turns` counter. The call
 * `TickTurn()` through a `HasDuration`-typed reference to a ConditionStats
 * reaches the base method, which `TickTurnAsDuration` models.
 */
module Conditions {

  datatype Condition = Stunned | Poisoned | Burning | Frozen | Weakened | Bolstered

  /** The serialised fields of a ConditionStats: what a cloned attack definition carries. */
  datatype StatsData = StatsData(turns: int, chance: real)

  /** A counter of remaining turns. */
  class HasDuration {
    var turns: int

    constructor (turns: int)
      ensures this.turns == turns
    {
      this.turns := turns;
    }

    /** Decrements by one; nothing stops it below zero. */
    method TickTurn()
      modifies this
      ensures turns == old(turns) - 1
    {
      turns := turns - 1;
    }

    method AddTurns(n: int)
      modifies this
      ensures turns == old(turns) + n
    {
      turns := turns + n;
    }
  }

  /** Two AddTurns calls in a row amount to one AddTurns with the sum. */
  method AddTurnsTwice(h: HasDuration, a: int, b: int)
    modifies h
    ensures h.turns == old(h.turns) + (a + b)
  {
    h.AddTurns(a);
    h.AddTurns(b);
  }

  /** The chance and duration with which an attack inflicts a condition. */
  class ConditionStats {
    var turns: int
    var chance: real

    constructor (turns: int, chance: real)
      ensures this.turns == turns && this.chance == chance
    {
      this.turns := turns;
      this.chance := chance;
    }

    /** The member that hides HasDuration.TickTurn: it does nothing. */
    method TickTurn()
      ensures turns == old(turns) && chance == old(chance)
    {
    }

    /** HasDuration.TickTurn reached through a base-class reference: the counter still drops. */
    method TickTurnAsDuration()
      modifies this
      ensures turns == old(turns) - 1 && chance == old(chance)
    {
      turns := turns - 1;
    }

    method AddTurns(n: int)
      modifies this
      ensures turns == old(turns) + n && chance == old(chance)
    {
      turns := turns + n;
    }

    /** The Chance setter; the getter is the `chance` field. */
    method SetChance(c: real)
      modifies this
      ensures chance == c && turns == old(turns)
    {
      chance := c;
    }

    /** The serialised copy that Instantiate gives a cloned definition. */
    function Data(): StatsData
      reads this
    {
      StatsData(turns, chance)
    }
  }

  /** A condition in force on an actor; its damage is fixed at construction. */
  class ActiveCondition {
    var turns: int
    const damage: int

    constructor (turns: int, damage: int)
      ensures this.turns == turns && this.damage == damage
    {
      this.turns := turns;
      this.damage := damage;
    }

    method TickTurn()
      modifies this
      ensures turns == old(turns) - 1
    {
      turns := turns - 1;
    }

    method AddTurns(n: int)
      modifies this
      ensures turns == old(turns) + n
    {
      turns := turns + n;
    }
  }
}
