/**
 * The party of heroes (Assets/Scripts/PartyManager.cs) and the battle setup
 * payload it fills (Assets/Scripts/Combat/SetupBattleContext.cs).
 *
 * The party's Dictionary<string, Hero> is a map plus the sequence of its keys
 * in insertion order, which is the order a Dictionary without removals
 * enumerates. Each handler is a method; raising the event that triggers it is
 * a call.
 */
module Party {
  import opened Wrappers
  import opened Damage
  import opened Progression
  import opened CsMath

  /** The first `n` elements, as LINQ's Take: nothing when `n` is not positive, everything when `n` is too large. */
  function Take<T>(s: seq<T>, n: int): (r: seq<T>)
    ensures |r| == if n <= 0 then 0 else if n < |s| then n else |s|
    ensures r == s[..|r|]
  {
    if n <= 0 then [] else if n < |s| then s[..n] else s
  }

  /** The parts of an EnemyConfig asset that battles read. An entry of `attacks` may be a missing reference. */
  class EnemyConfig {
    const actorID: string
    const actorName: string
    const attacks: seq<Option<AttackData>>
    const maxHealth: int
    const baseSpeed: int
    const experienceValue: int

    constructor (actorID: string, actorName: string, attacks: seq<Option<AttackData>>,
                 maxHealth: int, baseSpeed: int, experienceValue: int)
      ensures this.actorID == actorID && this.actorName == actorName && this.attacks == attacks
      ensures this.maxHealth == maxHealth && this.baseSpeed == baseSpeed && this.experienceValue == experienceValue
    {
      this.actorID := actorID;
      this.actorName := actorName;
      this.attacks := attacks;
      this.maxHealth := maxHealth;
      this.baseSpeed := baseSpeed;
      this.experienceValue := experienceValue;
    }
  }

  /** The constructor's default for `MaxPerSide`, the same as the property's initializer. */
  const DefaultMaxPerSide: int := 3

  /** The mutable payload listeners fill in before a battle. */
  class SetupBattleContext {
    var allHeroes: seq<Hero>
    var allEnemies: seq<EnemyConfig>
    var maxPerSide: int

    /**
     * Missing lists become empty ones; every static hero config becomes a fresh level-1 Hero.
     * Every argument may be left out: no heroes, no enemies and three per side.
     */
    constructor (staticHeroes: Option<seq<HeroConfig>> := None, staticEnemies: Option<seq<EnemyConfig>> := None,
                 maxPerSide: int := DefaultMaxPerSide)
      ensures this.maxPerSide == maxPerSide
      ensures allEnemies == staticEnemies.GetOr([])
      ensures |allHeroes| == |staticHeroes.GetOr([])|
      ensures forall i :: 0 <= i < |allHeroes| ==>
        && fresh(allHeroes[i])
        && allHeroes[i].baseConfig == staticHeroes.value[i]
        && allHeroes[i].State() == NewHeroState(staticHeroes.value[i], 1)
    {
      var configs := staticHeroes.GetOr([]);
      var heroes: seq<Hero> := [];
      for i := 0 to |configs|
        invariant |heroes| == i
        invariant forall k :: 0 <= k < i ==>
          && fresh(heroes[k]) && heroes[k].baseConfig == configs[k] && heroes[k].State() == NewHeroState(configs[k], 1)
      {
        var hero := new Hero(configs[i], 1);
        heroes := heroes + [hero];
      }
      allHeroes := heroes;
      allEnemies := staticEnemies.GetOr([]);
      this.maxPerSide := maxPerSide;
    }

    /** The heroes who take part: at most `maxPerSide`, first added first. */
    function Heroes(): (r: seq<Hero>)
      reads this
      ensures |r| == if maxPerSide <= 0 then 0 else if maxPerSide < |allHeroes| then maxPerSide else |allHeroes|
      ensures r == allHeroes[..|r|]
    {
      Take(allHeroes, maxPerSide)
    }

    /** The enemies who take part: at most `maxPerSide`, first listed first. */
    function Enemies(): (r: seq<EnemyConfig>)
      reads this
      ensures |r| == if maxPerSide <= 0 then 0 else if maxPerSide < |allEnemies| then maxPerSide else |allEnemies|
      ensures r == allEnemies[..|r|]
    {
      Take(allEnemies, maxPerSide)
    }

    method AddHero(hero: Hero)
      modifies this
      ensures allHeroes == old(allHeroes) + [hero]
      ensures allEnemies == old(allEnemies) && maxPerSide == old(maxPerSide)
    {
      allHeroes := allHeroes + [hero];
    }
  }

  /** The keys of `ids` that are in `active`, in order. */
  function ActiveIdsOf(ids: seq<string>, active: set<string>): (r: seq<string>)
    ensures |r| <= |ids|
    ensures forall x :: x in r <==> x in ids && x in active
  {
    if |ids| == 0 then []
    else ActiveIdsOf(ids[..|ids| - 1], active) + (if ids[|ids| - 1] in active then [ids[|ids| - 1]] else [])
  }

  /** Only the listed keys' membership matters. */
  lemma {:induction false} ActiveIdsOfAgree(ids: seq<string>, a: set<string>, b: set<string>)
    requires forall x :: x in ids ==> (x in a <==> x in b)
    ensures ActiveIdsOf(ids, a) == ActiveIdsOf(ids, b)
  {
    if |ids| > 0 {
      ActiveIdsOfAgree(ids[..|ids| - 1], a, b);
    }
  }

  /** Appending a new key appends it to the active keys exactly when it is active. */
  lemma AppendActive(ids: seq<string>, active: set<string>, x: string)
    requires x !in ids
    ensures ActiveIdsOf(ids + [x], active) == ActiveIdsOf(ids, active - {x}) + (if x in active then [x] else [])
  {
    assert (ids + [x])[..|ids|] == ids;
    ActiveIdsOfAgree(ids, active, active - {x});
  }

  /** The heroes stored under `ids`, in order. */
  function HeroesOf(ids: seq<string>, m: map<string, Hero>): (r: seq<Hero>)
    requires forall x :: x in ids ==> x in m
    ensures |r| == |ids|
    ensures forall i :: 0 <= i < |ids| ==> r[i] == m[ids[i]]
  {
    seq(|ids|, i requires 0 <= i < |ids| => m[ids[i]])
  }

  /** The serialised INACTIVE_EXP_COEFFICIENT's declared value; a scene may set another. */
  const DefaultInactiveExpCoefficient: real := 12.0

  /** An inactive hero's experience divisor: any non-zero value the inspector can hold. */
  type Coefficient = c: real | c != 0.0 witness DefaultInactiveExpCoefficient

  /**
   * A hero's share of an experience gain: the truncated per-head share when
   * active, the gain divided by the coefficient and rounded down otherwise.
   */
  function Share(exp: int, active: bool, activeCount: int, coefficient: Coefficient): (r: int)
    requires active ==> activeCount != 0
    ensures active && activeCount == 1 ==> r == exp
    ensures !active && 0 <= exp && 1.0 <= coefficient ==> 0 <= r <= exp
    ensures !active && 0.0 < coefficient ==> r as real * coefficient <= exp as real < r as real * coefficient + coefficient
  {
    if active then CsDiv(exp, activeCount)
    else
      if 0.0 < coefficient then FloorScaled(exp as real, coefficient); (exp as real / coefficient).Floor
      else (exp as real / coefficient).Floor
  }

  /** The floor of `x / c`, times a positive `c`, lies in `(x - c, x]`. */
  lemma FloorScaled(x: real, c: real)
    requires 0.0 < c
    ensures (x / c).Floor as real * c <= x < (x / c).Floor as real * c + c
  {
    var q := x / c;
    assert q * c == x;
    ScaleFraction(q.Floor as real, q, c, x);
  }

  /** `x == q * c` with `q` within one of `f` puts `x` within one `c` of `f * c`. */
  lemma ScaleFraction(f: real, q: real, c: real, x: real)
    requires f <= q < f + 1.0 && 0.0 < c && q * c == x
    ensures f * c <= x < f * c + c
  {
    var d := q - f;
    FractionBelow(d, c);
    assert x == f * c + d * c;
  }

  /** A fraction of a positive `c` stays below `c`. */
  lemma FractionBelow(d: real, c: real)
    requires 0.0 <= d < 1.0 && 0.0 < c
    ensures 0.0 <= d * c < c
  {
  }

  /** No key occurs twice. */
  predicate Distinct(s: seq<string>)
  {
    |s| == 0 || (s[|s| - 1] !in s[..|s| - 1] && Distinct(s[..|s| - 1]))
  }

  /** Two positions of a list without repeats hold different keys. */
  lemma {:induction false} DistinctAt(s: seq<string>, i: int, j: int)
    requires Distinct(s) && 0 <= i < |s| && 0 <= j < |s| && i != j
    ensures s[i] != s[j]
  {
    var init := s[..|s| - 1];
    if i < |s| - 1 && j < |s| - 1 {
      DistinctAt(init, i, j);
      assert init[i] == s[i] && init[j] == s[j];
    } else if i < |s| - 1 {
      assert init[i] == s[i];
    } else {
      assert init[j] == s[j];
    }
  }

  class PartyManager {
    /** AllHeroes' keys, in the order they were added. */
    var ids: seq<string>
    var allHeroes: map<string, Hero>
    /** The hero objects the dictionary holds: what the handlers may change. */
    ghost var Repr: set<Hero>

    /** Every key is listed once, every hero is stored under its config's id, and Repr holds every stored hero. */
    ghost predicate Valid()
      reads this
    {
      && Distinct(ids)
      && (forall x :: x in allHeroes <==> x in ids)
      && (forall x :: x in allHeroes ==> allHeroes[x].baseConfig.actorID == x && allHeroes[x] in Repr)
    }

    /** The scene's INACTIVE_EXP_COEFFICIENT. */
    const inactiveExpCoefficient: Coefficient

    /** An empty party with the scene's coefficient. */
    constructor (inactiveExpCoefficient: Coefficient)
      ensures Valid() && ids == [] && allHeroes == map[]
      ensures this.inactiveExpCoefficient == inactiveExpCoefficient
    {
      this.inactiveExpCoefficient := inactiveExpCoefficient;
      ids := [];
      allHeroes := map[];
      Repr := {};
    }

    /** The keys of the active heroes. */
    function ActiveSet(): set<string>
      requires Valid()
      reads this, Repr
    {
      set x | x in allHeroes && allHeroes[x].isActive
    }

    /** GetActiveParty: the active heroes, in insertion order. */
    function ActiveParty(): (r: seq<Hero>)
      requires Valid()
      reads this, Repr
      ensures |r| == ActiveCount() <= |ids|
      ensures forall i :: 0 <= i < |r| ==> r[i] in allHeroes.Values && r[i].isActive
      ensures forall x :: x in allHeroes ==> (allHeroes[x] in r <==> allHeroes[x].isActive)
    {
      HeroesOf(ActiveIdsOf(ids, ActiveSet()), allHeroes)
    }

    function ActiveCount(): int
      requires Valid()
      reads this, Repr
    {
      |ActiveIdsOf(ids, ActiveSet())|
    }

    /**
     * HandleAddHero: a config whose id is already present is ignored;
     * otherwise a fresh level-1 hero is added under that id and made active
     * when fewer than three heroes were active. At most three heroes are
     * ever made active this way.
     */
    method HandleAddHero(config: HeroConfig)
      requires Valid()
      modifies this
      ensures Valid()
      ensures config.actorID in old(allHeroes) ==> ids == old(ids) && allHeroes == old(allHeroes)
      ensures config.actorID !in old(allHeroes) ==>
        && ids == old(ids) + [config.actorID]
        && config.actorID in allHeroes
        && allHeroes == old(allHeroes)[config.actorID := allHeroes[config.actorID]]
        && fresh(allHeroes[config.actorID])
        && allHeroes[config.actorID].baseConfig == config
        && allHeroes[config.actorID].State() == NewHeroState(config, 1).(isActive := old(ActiveCount()) < 3)
      ensures ActiveCount() == old(ActiveCount()) + (if config.actorID !in old(allHeroes) && old(ActiveCount()) < 3 then 1 else 0)
      ensures old(ActiveCount()) <= 3 ==> ActiveCount() <= 3
    {
      if config.actorID !in allHeroes {
        Insert(config);
        if ActiveCount() < 3 {
          ActivateFirst(config);
        }
      }
    }

    /** `AllHeroes.Add(config.actorID, new Hero(config))`. */
    method Insert(config: HeroConfig)
      requires Valid() && config.actorID !in allHeroes
      modifies this
      ensures Valid()
      ensures ids == old(ids) + [config.actorID]
      ensures config.actorID in allHeroes
      ensures allHeroes == old(allHeroes)[config.actorID := allHeroes[config.actorID]]
      ensures fresh(allHeroes[config.actorID])
      ensures allHeroes[config.actorID].baseConfig == config
      ensures allHeroes[config.actorID].State() == NewHeroState(config, 1)
      ensures Repr == old(Repr) + {allHeroes[config.actorID]}
      ensures ActiveSet() == old(ActiveSet()) && ActiveCount() == old(ActiveCount())
    {
      ghost var before, oldIds := ActiveSet(), ids;
      var hero := new Hero(config, 1);
      ids := ids + [config.actorID];
      allHeroes := allHeroes[config.actorID := hero];
      Repr := Repr + {hero};
      assert ids[..|ids| - 1] == oldIds;
      assert ActiveSet() == before by {
        forall x | x in allHeroes
          ensures x in before <==> x != config.actorID && allHeroes[x].isActive
        {
          if x != config.actorID {
            assert allHeroes[x] == old(allHeroes[x]);
          }
        }
      }
      AppendActive(oldIds, before, config.actorID);
      assert before - {config.actorID} == before;
    }

    /** `AllHeroes.Values.First(hero => hero.BaseConfig == config).SetActive(true)`: it finds the hero stored under the config's id. */
    method ActivateFirst(config: HeroConfig)
      requires Valid() && config.actorID in allHeroes && allHeroes[config.actorID].baseConfig == config
      requires |ids| > 0 && ids[|ids| - 1] == config.actorID && config.actorID !in ActiveSet()
      modifies allHeroes[config.actorID]
      ensures allHeroes[config.actorID].State() == old(allHeroes[config.actorID].State()).(isActive := true)
      ensures ActiveSet() == old(ActiveSet()) + {config.actorID}
      ensures ActiveCount() == old(ActiveCount()) + 1
    {
      ghost var before, init := ActiveSet(), ids[..|ids| - 1];
      assert ids == init + [config.actorID];
      var j := 0;
      while j < |ids| && allHeroes[ids[j]].baseConfig != config
        invariant 0 <= j <= |ids|
        invariant forall k :: 0 <= k < j ==> allHeroes[ids[k]].baseConfig != config
      {
        j := j + 1;
      }
      assert j < |ids|;
      assert ids[j] == config.actorID;
      var first := allHeroes[ids[j]];
      DistinctHeroes();
      first.SetActive(true);
      assert ActiveSet() == before + {config.actorID};
      AppendActive(init, before, config.actorID);
      AppendActive(init, before + {config.actorID}, config.actorID);
      assert before - {config.actorID} == before && (before + {config.actorID}) - {config.actorID} == before;
    }

    /** HandleSetupBattle: every active hero is added to the battle's payload, in insertion order. */
    method HandleSetupBattle(context: SetupBattleContext)
      requires Valid()
      modifies context
      ensures context.allHeroes == old(context.allHeroes) + ActiveParty()
      ensures context.allEnemies == old(context.allEnemies) && context.maxPerSide == old(context.maxPerSide)
    {
      var party := ActiveParty();
      for i := 0 to |party|
        invariant context.allHeroes == old(context.allHeroes) + party[..i]
        invariant context.allEnemies == old(context.allEnemies) && context.maxPerSide == old(context.maxPerSide)
      {
        context.AddHero(party[i]);
        assert party[..i + 1] == party[..i] + [party[i]];
      }
      assert party[..|party|] == party;
    }

    /**
     * HandleExperienceGain: every hero gains experience once, active heroes
     * an equal truncated share and inactive ones a twelfth; which heroes are
     * active does not change.
     */
    method HandleExperienceGain(experienceToGain: int)
      requires Valid()
      modifies Repr
      ensures forall x :: x in allHeroes && x in old(ActiveSet()) ==> old(ActiveCount()) > 0
      ensures forall x :: x in allHeroes ==>
        allHeroes[x].State() == Gained(allHeroes[x].baseConfig, old(allHeroes[x].State()),
                                       Share(experienceToGain, x in old(ActiveSet()), old(ActiveCount()), inactiveExpCoefficient))
      ensures ActiveSet() == old(ActiveSet())
    {
      ghost var active, count := ActiveSet(), ActiveCount();
      ghost var before := map y | y in allHeroes :: allHeroes[y].State();
      for i := 0 to |ids|
        invariant ActiveSet() == active && ActiveCount() == count
        invariant GainedUpTo(i, experienceToGain, before, active, count)
      {
        GainFor(i, experienceToGain, before, active, count);
      }
    }

    /**
     * HandleExperienceGain's loop after `i` passes: the first `i` heroes have
     * gained their share of `exp` from the state `before` records, the rest
     * are as `before` records.
     */
    ghost predicate GainedUpTo(i: int, exp: int, before: map<string, HeroState>, active: set<string>, count: int)
      requires Valid()
      reads this, Repr
    {
      && 0 <= i <= |ids|
      && (forall k :: 0 <= k < |ids| ==> ids[k] in before)
      && (forall k :: 0 <= k < i ==> ids[k] in active ==> count > 0)
      && (forall k :: 0 <= k < i ==>
            allHeroes[ids[k]].State() == Gained(allHeroes[ids[k]].baseConfig, before[ids[k]], Share(exp, ids[k] in active, count, inactiveExpCoefficient)))
      && (forall k :: i <= k < |ids| ==> allHeroes[ids[k]].State() == before[ids[k]])
    }

    /** One pass of HandleExperienceGain's loop: the hero under the `i`-th key gains its share. */
    method GainFor(i: int, experienceToGain: int, ghost before: map<string, HeroState>, ghost active: set<string>, ghost count: int)
      requires Valid() && 0 <= i < |ids|
      requires ActiveSet() == active && ActiveCount() == count
      requires GainedUpTo(i, experienceToGain, before, active, count)
      modifies allHeroes[ids[i]]
      ensures ActiveSet() == active && ActiveCount() == count
      ensures GainedUpTo(i + 1, experienceToGain, before, active, count)
    {
      var x := ids[i];
      ghost var hero := allHeroes[x];
      forall k | 0 <= k < |ids| && k != i
        ensures allHeroes[ids[k]] != hero
      {
        DistinctAt(ids, k, i);
        DistinctHeroes();
      }
      GainOne(x, experienceToGain);
    }

    /** The hero under `x` gains its share: GetActiveParty is recomputed and the hero's membership decides the share. */
    method GainOne(x: string, experienceToGain: int)
      requires Valid() && x in allHeroes
      modifies allHeroes[x]
      ensures x in old(ActiveSet()) ==> old(ActiveCount()) > 0
      ensures allHeroes[x].State() == Gained(allHeroes[x].baseConfig, old(allHeroes[x].State()),
                                             Share(experienceToGain, x in old(ActiveSet()), old(ActiveCount()), inactiveExpCoefficient))
      ensures ActiveSet() == old(ActiveSet())
    {
      var hero := allHeroes[x];
      ghost var before := ActiveSet();
      assert forall y :: y in allHeroes && y != x ==> allHeroes[y] != hero by {
        DistinctHeroes();
      }
      var activeIds := ActiveIdsOf(ids, ActiveSet());
      if x in ActiveSet() {
        assert x in activeIds;
        hero.GainExperience(CsDiv(experienceToGain, |activeIds|));
      } else {
        hero.GainExperience((experienceToGain as real / inactiveExpCoefficient).Floor);
      }
      assert hero.isActive == old(hero.isActive) by {
        assert hero.State().isActive == old(hero.State()).isActive;
      }
      assert ActiveSet() == before by {
        forall y | y in allHeroes
          ensures y in before <==> allHeroes[y].isActive
        {
          if y != x {
            assert allHeroes[y].isActive == old(allHeroes[y].isActive);
          }
        }
      }
    }

    /** The hero stored under each key is a different object. */
    lemma DistinctHeroes()
      requires Valid()
      ensures forall x, y :: x in allHeroes && y in allHeroes && x != y ==> allHeroes[x] != allHeroes[y]
    {
      forall x, y | x in allHeroes && y in allHeroes && x != y
        ensures allHeroes[x] != allHeroes[y]
      {
        assert allHeroes[x].baseConfig.actorID == x && allHeroes[y].baseConfig.actorID == y;
      }
    }

    /**
     * HandleHealthChange: for a hero battle actor, the stored hero's health
     * becomes the reported health rounded down and clamped into
     * [0, MaxHealth]; an id the party does not hold raises
     * KeyNotFoundException, reported as `thrown`.
     */
    method HandleHealthChange(isHeroBattleActor: bool, actorID: string, currentHealth: real) returns (thrown: bool)
      requires Valid()
      modifies Repr
      ensures thrown <==> isHeroBattleActor && actorID !in allHeroes
      ensures forall x :: x in allHeroes ==>
        allHeroes[x].State() == if isHeroBattleActor && x == actorID
          then old(allHeroes[x].State()).(currentHealth := ClampHealth(currentHealth.Floor, old(allHeroes[x].maxHealth)))
          else old(allHeroes[x].State())
    {
      thrown := false;
      if isHeroBattleActor {
        if actorID !in allHeroes {
          thrown := true;
          return;
        }
        var hero := allHeroes[actorID];
        assert forall x :: x in allHeroes && x != actorID ==> allHeroes[x] != hero by {
          forall x | x in allHeroes && x != actorID
            ensures allHeroes[x] != hero
          {
            assert allHeroes[x].baseConfig.actorID == x;
          }
        }
        hero.SetHealth(currentHealth.Floor);
      }
    }
  }
}
