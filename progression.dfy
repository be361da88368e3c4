/**
 * Hero progression (Assets/Scripts/Configs/HeroConfig.cs, Assets/Scripts/Hero.cs).
 *
 * A HeroConfig is an asset compared by reference, so it is a class whose
 * fields never change. Its AnimationCurves are arrow-typed fields: the model
 * assumes nothing about what a curve evaluates to. Int results of
 * `(int)Math.Floor(curve.Evaluate(level))` are `Floor` of a real.
 */
module Progression {
  import opened Tables
  import opened Damage

  // ----- AttacksForLevel -----

  /** The attack lists of the entries whose level key is at most `level`, concatenated in entry order. */
  function AttacksUpTo<T>(entries: seq<(int, seq<T>)>, level: int): seq<T>
  {
    if |entries| == 0 then []
    else
      var last := entries[|entries| - 1];
      AttacksUpTo(entries[..|entries| - 1], level) + (if last.0 <= level then last.1 else [])
  }

  /** `a` can be obtained from `b` by deleting elements. */
  predicate Subseq<T(==)>(a: seq<T>, b: seq<T>)
    decreases |b|
  {
    if |a| == 0 then true
    else if |b| == 0 then false
    else (a[|a| - 1] == b[|b| - 1] && Subseq(a[..|a| - 1], b[..|b| - 1])) || Subseq(a, b[..|b| - 1])
  }

  lemma {:induction false} SubseqExtend<T>(a: seq<T>, b: seq<T>, c: seq<T>)
    requires Subseq(a, b)
    ensures Subseq(a, b + c)
    decreases |c|
  {
    if |c| > 0 {
      assert (b + c)[..|b + c| - 1] == b + c[..|c| - 1];
      SubseqExtend(a, b, c[..|c| - 1]);
      if |a| > 0 {
        assert Subseq(a, (b + c)[..|b + c| - 1]);
      }
    } else {
      assert b + c == b;
    }
  }

  lemma {:induction false} SubseqAppendBoth<T>(a: seq<T>, b: seq<T>, c: seq<T>)
    requires Subseq(a, b)
    ensures Subseq(a + c, b + c)
    decreases |c|
  {
    if |c| > 0 {
      SubseqAppendBoth(a, b, c[..|c| - 1]);
      assert (a + c)[..|a + c| - 1] == a + c[..|c| - 1];
      assert (b + c)[..|b + c| - 1] == b + c[..|c| - 1];
      assert (a + c)[|a + c| - 1] == c[|c| - 1] == (b + c)[|b + c| - 1];
    } else {
      assert a + c == a && b + c == b;
    }
  }

  /** A lower level's attacks are a subsequence of a higher level's. */
  lemma {:induction false} AttacksMonotone<T>(entries: seq<(int, seq<T>)>, l1: int, l2: int)
    requires l1 <= l2
    ensures Subseq(AttacksUpTo(entries, l1), AttacksUpTo(entries, l2))
  {
    if |entries| == 0 {
    } else {
      var init := entries[..|entries| - 1];
      var last := entries[|entries| - 1];
      var a1, a2 := AttacksUpTo(init, l1), AttacksUpTo(init, l2);
      AttacksMonotone(init, l1, l2);
      if last.0 <= l1 {
        SubseqAppendBoth(a1, a2, last.1);
      } else if last.0 <= l2 {
        SubseqExtend(a1, a2, last.1);
        assert AttacksUpTo(entries, l1) == a1 + [] == a1;
      } else {
        assert AttacksUpTo(entries, l1) == a1 + [] == a1;
        assert AttacksUpTo(entries, l2) == a2 + [] == a2;
      }
    }
  }

  /** An attack is available at `level` exactly when some entry with key at most `level` lists it. */
  lemma {:induction false} AttacksMembership<T>(entries: seq<(int, seq<T>)>, level: int, x: T)
    ensures x in AttacksUpTo(entries, level) <==>
      exists i :: 0 <= i < |entries| && entries[i].0 <= level && x in entries[i].1
  {
    if |entries| > 0 {
      var init := entries[..|entries| - 1];
      var last := entries[|entries| - 1];
      AttacksMembership(init, level, x);
      if x in AttacksUpTo(init, level) {
        var i :| 0 <= i < |init| && init[i].0 <= level && x in init[i].1;
        assert entries[i] == init[i];
      }
      if exists i :: 0 <= i < |entries| && entries[i].0 <= level && x in entries[i].1 {
        var i :| 0 <= i < |entries| && entries[i].0 <= level && x in entries[i].1;
        if i < |init| {
          assert init[i] == entries[i];
        }
      }
    }
  }

  /** A level below every key gives nothing. */
  lemma {:induction false} AttacksBelowEveryKey<T>(entries: seq<(int, seq<T>)>, level: int)
    requires forall i :: 0 <= i < |entries| ==> level < entries[i].0
    ensures AttacksUpTo(entries, level) == []
  {
    if |entries| > 0 {
      AttacksBelowEveryKey(entries[..|entries| - 1], level);
    }
  }

  /** Entries with the same key all contribute, in entry order. */
  lemma DuplicateKeysContribute(a: AttackData, b: AttackData)
    ensures AttacksUpTo([(1, [a]), (1, [b])], 1) == [a, b]
  {
    var es: seq<(int, seq<AttackData>)> := [(1, [a]), (1, [b])];
    var first: seq<(int, seq<AttackData>)> := es[..1];
    assert first == [(1, [a])];
    assert first[..0] == [];
    assert AttacksUpTo(first, 1) == AttacksUpTo(first[..0], 1) + [a] == [a];
    assert es[..1] == first;
    assert AttacksUpTo(es, 1) == AttacksUpTo(first, 1) + [b];
  }

  /** `s` repeated `n` times. */
  function Repeat<T>(s: seq<T>, n: nat): (r: seq<T>)
    ensures |r| == n * |s|
  {
    if n == 0 then [] else Repeat(s, n - 1) + s
  }

  // ----- HeroConfig -----

  /** The parts of a HeroConfig asset the progression logic reads. */
  class HeroConfig {
    const actorID: string
    const actorName: string
    const baseHealth: int
    const baseSpeed: int
    const attacks: seq<AttackData>
    const attacksByLevel: Table<int, seq<AttackData>>
    const flatResistances: Table<DamageType, real>
    const resistanceMultipliers: Table<DamageType, real>
    /** progressions[HealthBonus].Evaluate */
    const healthBonus: real -> real
    /** expToLevel.Evaluate */
    const expToLevel: real -> real

    constructor (actorID: string, actorName: string, baseHealth: int, baseSpeed: int, attacks: seq<AttackData>,
                 attacksByLevel: Table<int, seq<AttackData>>, flatResistances: Table<DamageType, real>,
                 resistanceMultipliers: Table<DamageType, real>, healthBonus: real -> real, expToLevel: real -> real)
      ensures this.actorID == actorID && this.actorName == actorName
      ensures this.flatResistances == flatResistances && this.resistanceMultipliers == resistanceMultipliers
      ensures this.baseHealth == baseHealth && this.baseSpeed == baseSpeed && this.attacks == attacks
      ensures this.attacksByLevel == attacksByLevel && this.healthBonus == healthBonus && this.expToLevel == expToLevel
    {
      this.actorID := actorID;
      this.actorName := actorName;
      this.baseHealth := baseHealth;
      this.baseSpeed := baseSpeed;
      this.attacks := attacks;
      this.attacksByLevel := attacksByLevel;
      this.flatResistances := flatResistances;
      this.resistanceMultipliers := resistanceMultipliers;
      this.healthBonus := healthBonus;
      this.expToLevel := expToLevel;
    }

    /** The attack lists of every entry whose level key is at most `level`, in entry order. */
    function AttacksForLevel(level: int): seq<AttackData>
    {
      AttacksUpTo(Pairs(attacksByLevel), level)
    }

    /** `(int)Math.Floor(HealthBonus.Evaluate(level))`. */
    function HealthGain(level: int): int
    {
      healthBonus(level as real).Floor
    }
  }

  // ----- Hero -----

  /** A hero's mutable fields, as one value. */
  datatype HeroState = HeroState(
    isActive: bool, level: int, currentHealth: int, maxHealth: int, experience: int, attacks: seq<AttackData>)

  /**
   * The state after the constructor: inactive, experience 0, and `level`
   * loop passes that each add the bonus and the attack list of the unchanged
   * starting level.
   */
  function NewHeroState(config: HeroConfig, level: int): (s: HeroState)
    ensures !s.isActive && s.level == level && s.experience == 0
    ensures s.currentHealth == s.maxHealth
    ensures level <= 0 ==> s.maxHealth == config.baseHealth && s.attacks == config.attacks
  {
    var n: nat := if level > 0 then level else 0;
    var hp := config.baseHealth + n * config.HealthGain(level);
    HeroState(false, level, hp, hp, 0, config.attacks + Repeat(config.AttacksForLevel(level), n))
  }

  /** LevelUp: the next level, experience reset to zero, the new level's bonus and attacks. */
  function LevelledUp(config: HeroConfig, s: HeroState): (r: HeroState)
    ensures r.level == s.level + 1 && r.experience == 0 && r.isActive == s.isActive
    ensures r.maxHealth - s.maxHealth == r.currentHealth - s.currentHealth == config.HealthGain(s.level + 1)
    ensures r.attacks == s.attacks + config.AttacksForLevel(s.level + 1)
  {
    var gain := config.HealthGain(s.level + 1);
    s.(level := s.level + 1, experience := 0, currentHealth := s.currentHealth + gain,
       maxHealth := s.maxHealth + gain, attacks := s.attacks + config.AttacksForLevel(s.level + 1))
  }

  /** GainExperience: add the gain, then level up once if the threshold of the current level is reached. */
  function Gained(config: HeroConfig, s: HeroState, exp: int): (r: HeroState)
    ensures r.isActive == s.isActive
  {
    var total := s.experience + exp;
    if total as real >= config.expToLevel(s.level as real) then LevelledUp(config, s.(experience := total))
    else s.(experience := total)
  }

  /** `Math.Max(0, Math.Min(n, max))`. */
  function ClampHealth(n: int, maxHealth: int): (h: int)
    ensures h >= 0
    ensures maxHealth >= 0 ==> h <= maxHealth
    ensures 0 <= n <= maxHealth ==> h == n
  {
    if n <= maxHealth then (if n >= 0 then n else 0) else (if maxHealth >= 0 then maxHealth else 0)
  }

  /** One call levels up at most once, and a level-up discards all experience. */
  lemma GainedAtMostOneLevel(config: HeroConfig, s: HeroState, exp: int)
    ensures var r := Gained(config, s, exp);
      && (r.level == s.level || r.level == s.level + 1)
      && (r.level == s.level + 1 <==> (s.experience + exp) as real >= config.expToLevel(s.level as real))
      && (r.level == s.level ==> r.experience == s.experience + exp && r.attacks == s.attacks)
      && (r.level == s.level + 1 ==> r.experience == 0)
      && r.maxHealth - s.maxHealth == r.currentHealth - s.currentHealth
      && r.isActive == s.isActive
  {
  }

  /** The constructor loop adds the starting level's bonus once per level, never a higher level's. */
  lemma NewHeroOneLevel(config: HeroConfig)
    ensures NewHeroState(config, 1).maxHealth == config.baseHealth + config.HealthGain(1)
    ensures NewHeroState(config, 1).attacks == config.attacks + config.AttacksForLevel(1)
  {
    assert Repeat(config.AttacksForLevel(1), 1) == [] + config.AttacksForLevel(1);
  }

  /** A hero owned by the party, built from a config and a starting level. */
  class Hero {
    const baseConfig: HeroConfig
    var isActive: bool
    var currentLevel: int
    var currentHealth: int
    var maxHealth: int
    var currentExperience: int
    var availableAttacks: seq<AttackData>

    function State(): HeroState
      reads this
    {
      HeroState(isActive, currentLevel, currentHealth, maxHealth, currentExperience, availableAttacks)
    }

    constructor (config: HeroConfig, level: int)
      ensures baseConfig == config
      ensures State() == NewHeroState(config, level)
    {
      baseConfig := config;
      new;
      isActive := false;
      currentLevel := level;
      currentExperience := 0;
      maxHealth := config.baseHealth;
      currentHealth := maxHealth;
      availableAttacks := config.attacks;
      var i := 0;
      while i < level
        invariant 0 <= i <= (if level > 0 then level else 0)
        invariant currentLevel == level && currentExperience == 0 && !isActive
        invariant maxHealth == currentHealth == config.baseHealth + i * config.HealthGain(level)
        invariant availableAttacks == config.attacks + Repeat(config.AttacksForLevel(level), i)
      {
        var healthToGain := config.HealthGain(currentLevel);
        currentHealth := currentHealth + healthToGain;
        maxHealth := maxHealth + healthToGain;
        availableAttacks := availableAttacks + config.AttacksForLevel(currentLevel);
        i := i + 1;
      }
    }

    method SetActive(active: bool)
      modifies this
      ensures State() == old(State()).(isActive := active)
    {
      isActive := active;
    }

    method GainExperience(expToGain: int)
      modifies this
      ensures State() == Gained(baseConfig, old(State()), expToGain)
    {
      currentExperience := currentExperience + expToGain;
      if currentExperience as real >= baseConfig.expToLevel(currentLevel as real) {
        LevelUp();
      }
    }

    method SetHealth(newHealth: int)
      modifies this
      ensures State() == old(State()).(currentHealth := ClampHealth(newHealth, maxHealth))
    {
      currentHealth := if 0 >= (if newHealth <= maxHealth then newHealth else maxHealth) then 0
                       else (if newHealth <= maxHealth then newHealth else maxHealth);
    }

    method LevelUp()
      modifies this
      ensures State() == LevelledUp(baseConfig, old(State()))
    {
      currentLevel := currentLevel + 1;
      currentExperience := 0;
      var healthToGain := baseConfig.HealthGain(currentLevel);
      currentHealth := currentHealth + healthToGain;
      maxHealth := maxHealth + healthToGain;
      availableAttacks := availableAttacks + baseConfig.AttacksForLevel(currentLevel);
    }
  }
}
