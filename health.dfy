/**
 * The hit-point component (Assets/Scripts/Combat/Health.cs). Health is a
 * float in the source; here it is `real`. Damage is clamped below at zero
 * but not above, healing is clamped above at the maximum but not below.
 */
module HealthComponent {

  /** CurrentHealth after TakeDamage(damage): never below zero, with no upper clamp. */
  function Damaged(current: real, damage: real): (h: real)
    ensures h >= 0.0
    ensures h == current - damage || (h == 0.0 && damage >= current)
    ensures damage >= current ==> h == 0.0
    ensures h > 0.0 <==> damage < current
  {
    var lowered := current - damage;
    if lowered >= 0.0 then lowered else 0.0
  }

  /** CurrentHealth after Heal(amount): never above the maximum, with no lower clamp. */
  function Healed(current: real, amount: real, maxHealth: real): (h: real)
    ensures h <= maxHealth
    ensures h == current + amount || (h == maxHealth && current + amount >= maxHealth)
  {
    var raised := current + amount;
    if raised <= maxHealth then raised else maxHealth
  }

  /** A negative damage value raises health past the maximum: TakeDamage has no upper clamp. */
  lemma NegativeDamageOverheals()
    ensures Damaged(100.0, -5.0) == 105.0
    ensures Damaged(100.0, -5.0) > 100.0
  {
  }

  /** A negative heal lowers health, even below zero: Heal has no lower clamp. */
  lemma NegativeHealLowers()
    ensures Healed(2.0, -5.0, 100.0) == -3.0
  {
  }

  /** Damage never raises health, and healing by a nonnegative amount from within the maximum never lowers it. */
  lemma DamageHealMonotone(current: real, amount: real, maxHealth: real)
    requires amount >= 0.0
    ensures current >= 0.0 ==> Damaged(current, amount) <= current
    ensures current <= maxHealth ==> current <= Healed(current, amount, maxHealth)
  {
  }

  class Health {
    var maxHealth: real
    var currentHealth: real
    var initialized: bool

    /** The declared defaults with Awake's `CurrentHealth = MaxHealth`. */
    constructor ()
      ensures maxHealth == 100.0 && currentHealth == 100.0 && !initialized
    {
      maxHealth := 100.0;
      currentHealth := 100.0;
      initialized := false;
    }

    predicate IsAlive()
      reads this
    {
      currentHealth > 0.0
    }

    /** Sets both values to `m` on the first call; later calls do nothing. */
    method Initialize(m: int)
      modifies this
      ensures initialized
      ensures old(initialized) ==> maxHealth == old(maxHealth) && currentHealth == old(currentHealth)
      ensures !old(initialized) ==> maxHealth == m as real && currentHealth == m as real
    {
      if !initialized {
        maxHealth := m as real;
        currentHealth := m as real;
        initialized := true;
      }
    }

    /** Subtracts and clamps at zero; a hit at least as large as the current health kills. */
    method TakeDamage(damage: real)
      modifies this
      ensures currentHealth == Damaged(old(currentHealth), damage)
      ensures maxHealth == old(maxHealth) && initialized == old(initialized)
      ensures IsAlive() <==> damage < old(currentHealth)
    {
      currentHealth := currentHealth - damage;
      currentHealth := if currentHealth >= 0.0 then currentHealth else 0.0;
    }

    /** Adds and clamps at the maximum. */
    method Heal(amount: real)
      modifies this
      ensures currentHealth == Healed(old(currentHealth), amount, maxHealth)
      ensures maxHealth == old(maxHealth) && initialized == old(initialized)
    {
      currentHealth := currentHealth + amount;
      currentHealth := if currentHealth <= maxHealth then currentHealth else maxHealth;
    }
  }
}
