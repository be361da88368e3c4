/**
 * The battle loop (Assets/Scripts/BattleManager.cs).
 *
 * The BattleLoop coroutine is an explicit state machine: `pc` says where the
 * coroutine stands and `Step` runs it to the next point. Waiting for seconds
 * or a frame is not observable here and becomes nothing; the one point where
 * the loop can stand still is `AwaitingAction`, the wait for the player's
 * choice, which `HandlePlayerActionChosen` satisfies. Raised events are
 * appended to `notices`. An exception inside the coroutine stops it for good
 * (`Faulted`). Random.value is the stream `draws`, read from position `pos`.
 *
 * The model keeps every instantiated actor subscribed to the attack and
 * defend events, so the listeners of an attack are the components of all
 * actors spawned so far, in spawn order. The game deactivates a defeated
 * actor, and its components then unsubscribe; the model does not, so a
 * defeated actor's modifiers keep applying.
 */
module Battle {
  import opened Wrappers
  import opened Tables
  import opened Damage
  import opened Modifiers
  import opened HealthComponent
  import opened Combat
  import opened Progression
  import opened Party
  import opened Actors
  import opened TurnOrder

  datatype BattleState = CalculatingTurnOrder | PlayerTurn | EnemyTurn | PerformingAction | BattleEnd

  datatype EndResult = Undecided | PlayersWin | PlayersLose

  /** Where the battle coroutine stands. */
  datatype Pc =
    | Stopped         // no loop is running
    | LoopHead        // the outer `while`: end check, then a new round
    | InnerHead       // the inner `while`: the next queued actor
    | TurnStart(actor: BattleActor)    // a living actor was dequeued: its turn begins
    | AwaitingAction  // WaitUntil a player action is chosen
    | EnemyAction(enemy: BattleActor)  // PerformEnemyAction, its argument taken when the turn started
    | EnemyStrike(enemy: BattleActor, action: SoundAction)  // PerformEnemyAction after the AI chose its attack
    | TurnEnd         // the turn-end event and the roster pruning
    | Ending          // after the outer loop: the final result
    | Faulted         // an exception ended the coroutine

  /** Raised game events, in order. */
  datatype Notice =
    | BattleStarted(actors: seq<BattleActor>)
    | TurnStarted(actor: BattleActor)
    | TurnEnded(endedBy: Option<BattleActor>)
    | AvailableAttacks(attacks: seq<AttackData>)
    | AvailableTargets(targets: seq<BattleActor>)
    | BattleEnded(playerWon: bool)
    | OverworldRequested

  datatype BattleConfig = BattleConfig(enemies: seq<EnemyConfig>, heroes: seq<HeroConfig>)

  function Healths(s: seq<BattleActor>): (r: seq<Health>)
    ensures |r| == |s| && forall i :: 0 <= i < |s| ==> r[i] == s[i].health
  {
    seq(|s|, i requires 0 <= i < |s| => s[i].health)
  }

  function Offenses(s: seq<BattleActor>): (r: seq<Attack>)
    ensures |r| == |s| && forall i :: 0 <= i < |s| ==> r[i] == s[i].attack
  {
    seq(|s|, i requires 0 <= i < |s| => s[i].attack)
  }

  function Defenses(s: seq<BattleActor>): (r: seq<Resistance>)
    ensures |r| == |s| && forall i :: 0 <= i < |s| ==> r[i] == s[i].resistance
  {
    seq(|s|, i requires 0 <= i < |s| => s[i].resistance)
  }

  /** `Where(a => a.IsAlive)`: the living actors, in order. */
  function Living(s: seq<BattleActor>): (r: seq<BattleActor>)
    reads s, Healths(s)
    ensures |r| <= |s|
    ensures forall i :: 0 <= i < |r| ==> r[i] in s && r[i].IsAlive()
  {
    if |s| == 0 then []
    else
      var init, last := s[..|s| - 1], s[|s| - 1];
      assert forall x :: x in init ==> x in s;
      Living(init) + (if last.IsAlive() then [last] else [])
  }

  /** What `enemyActors.RemoveAll(a => !a.IsAlive || a.IsPlayerControlled)` keeps. */
  function LivingEnemies(s: seq<BattleActor>): (r: seq<BattleActor>)
    reads s, Healths(s)
    ensures forall i :: 0 <= i < |r| ==> r[i] in s && r[i].IsAlive() && !r[i].isPlayerControlled
  {
    if |s| == 0 then []
    else
      var init, last := s[..|s| - 1], s[|s| - 1];
      assert forall x :: x in init ==> x in s;
      LivingEnemies(init) + (if last.IsAlive() && !last.isPlayerControlled then [last] else [])
  }

  /** What `playerActors.RemoveAll(a => !a.IsPlayerControlled)` keeps: liveness plays no part. */
  function PlayerControlled(s: seq<BattleActor>): (r: seq<BattleActor>)
    ensures forall i :: 0 <= i < |r| ==> r[i] in s && r[i].isPlayerControlled
  {
    if |s| == 0 then []
    else PlayerControlled(s[..|s| - 1]) + (if s[|s| - 1].isPlayerControlled then [s[|s| - 1]] else [])
  }

  /** Filtering keeps every living actor. */
  lemma {:induction false} LivingComplete(s: seq<BattleActor>, i: nat)
    requires i < |s| && s[i].IsAlive()
    ensures s[i] in Living(s)
  {
    if i < |s| - 1 {
      assert s[..|s| - 1][i] == s[i];
      LivingComplete(s[..|s| - 1], i);
    }
  }

  /** Pruning the enemy list keeps every living AI actor. */
  lemma {:induction false} LivingEnemiesComplete(s: seq<BattleActor>, i: nat)
    requires i < |s| && s[i].IsAlive() && !s[i].isPlayerControlled
    ensures s[i] in LivingEnemies(s)
  {
    if i < |s| - 1 {
      assert s[..|s| - 1][i] == s[i];
      LivingEnemiesComplete(s[..|s| - 1], i);
    }
  }

  /** Pruning the player list never drops a player-controlled actor, dead or alive. */
  lemma {:induction false} PlayerControlledKeepsAll(s: seq<BattleActor>)
    requires forall i :: 0 <= i < |s| ==> s[i].isPlayerControlled
    ensures PlayerControlled(s) == s
  {
    if |s| > 0 {
      assert s == s[..|s| - 1] + [s[|s| - 1]];
      PlayerControlledKeepsAll(s[..|s| - 1]);
    }
  }

  /** `All(a => !a.IsAlive)`: true of an empty list. */
  predicate AllDefeated(s: seq<BattleActor>)
    reads s, Healths(s)
  {
    forall i :: 0 <= i < |s| ==> !s[i].IsAlive()
  }

  /** Losing is checked first: no living player is a loss even when every enemy is dead. */
  function EndOf(players: seq<BattleActor>, enemies: seq<BattleActor>): (r: EndResult)
    reads players, enemies, Healths(players), Healths(enemies)
    ensures r == PlayersLose <==> AllDefeated(players)
    ensures r == PlayersWin <==> !AllDefeated(players) && AllDefeated(enemies)
    ensures r == Undecided <==> (exists i :: 0 <= i < |players| && players[i].IsAlive()) &&
                                 (exists j :: 0 <= j < |enemies| && enemies[j].IsAlive())
  {
    if AllDefeated(players) then PlayersLose
    else if AllDefeated(enemies) then PlayersWin
    else Undecided
  }

  /** Each actor paired with its speed, the sort key. */
  function Keyed(s: seq<BattleActor>): (r: seq<(int, BattleActor)>)
    reads s
    ensures |r| == |s| && forall i :: 0 <= i < |s| ==> r[i] == (s[i].currentSpeed, s[i])
  {
    seq(|s|, i requires 0 <= i < |s| reads s => (s[i].currentSpeed, s[i]))
  }

  /** The round's queue: the living actors by speed, highest first, ties in roster order. */
  function TurnOrderOf(actors: seq<BattleActor>): seq<BattleActor>
    reads actors, Healths(actors)
  {
    Values(SortDesc(Keyed(Living(actors))))
  }

  /** The queue holds exactly the living actors of the roster. */
  lemma TurnOrderMembers(actors: seq<BattleActor>, x: BattleActor)
    ensures x in TurnOrderOf(actors) <==> x in actors && x.IsAlive()
  {
    var l := Living(actors);
    SortMembers(Keyed(l), x);
    if x in Values(Keyed(l)) {
      var i :| 0 <= i < |l| && Values(Keyed(l))[i] == x;
      assert x in l;
    }
    if x in actors && x.IsAlive() {
      var j :| 0 <= j < |actors| && actors[j] == x;
      LivingComplete(actors, j);
      var i :| 0 <= i < |l| && l[i] == x;
      assert Values(Keyed(l))[i] == x;
    }
  }

  /** The queue runs from the fastest actor to the slowest. */
  lemma TurnOrderBySpeed(actors: seq<BattleActor>)
    ensures var q := TurnOrderOf(actors);
      forall i, j :: 0 <= i < j < |q| ==> q[i].currentSpeed >= q[j].currentSpeed
  {
    var k := Keyed(Living(actors));
    var sorted := SortDesc(k);
    forall e | e in sorted
      ensures e.0 == e.1.currentSpeed
    {
      assert e in multiset(k);
      var i :| 0 <= i < |k| && k[i] == e;
    }
    forall i, j | 0 <= i < j < |sorted|
      ensures Values(sorted)[i].currentSpeed >= Values(sorted)[j].currentSpeed
    {
      assert sorted[i] in sorted && sorted[j] in sorted;
    }
  }

  /** Among actors of equal speed, the queue keeps roster order. */
  lemma TurnOrderStable(actors: seq<BattleActor>, speed: int)
    ensures WithKey(SortDesc(Keyed(Living(actors))), speed) == WithKey(Keyed(Living(actors)), speed)
  {
    SortStable(Keyed(Living(actors)), speed);
  }

  /** The `n` random keys drawn from `pos` on. */
  function RollKeys(draws: nat -> real, pos: nat, n: nat): (r: seq<real>)
    ensures |r| == n && forall i :: 0 <= i < n ==> r[i] == draws(pos + i)
  {
    seq(n, i requires 0 <= i < n => draws(pos + i))
  }

  /** `OrderBy(key).FirstOrDefault()` on distinct positions: the first position holding the smallest key. */
  function FirstMin(keys: seq<real>): (i: nat)
    requires |keys| > 0
    ensures i < |keys|
    ensures forall j :: 0 <= j < |keys| ==> keys[i] <= keys[j]
    ensures forall j :: 0 <= j < i ==> keys[j] > keys[i]
  {
    if |keys| == 1 then 0
    else
      var m := FirstMin(keys[..|keys| - 1]);
      assert forall j :: 0 <= j < |keys| - 1 ==> keys[..|keys| - 1][j] == keys[j];
      if keys[|keys| - 1] < keys[m] then |keys| - 1 else m
  }

  /** The health components an action's target may lose health from. */
  function TargetHealths(action: PlayerAction): set<Health>
  {
    if action.target.Some? then {action.target.value.health} else {}
  }

  /** The action PerformPlayerAction resolves as an attack: definition and target present, target alive. */
  predicate Strikes(action: PlayerAction)
    reads if action.target.Some? then {action.target.value} else {}, TargetHealths(action)
  {
    action.actionType == AttackAction && action.attackDefinition.Some? &&
    action.target.Some? && action.target.value.IsAlive()
  }

  /** A hero actor with the given id after BattleActor.Initialize(config) on a fresh prefab. */
  predicate HeroReady(a: BattleActor, id: int, config: HeroConfig)
    reads a, a.health, a.resistance
  {
    && a.id == id && a.isPlayerControlled && a.aliveFlag && a.enemyConfig.None?
    && a.attacks == config.attacks && a.currentSpeed == config.baseSpeed
    && a.health.currentHealth == config.baseHealth as real && a.health.maxHealth == config.baseHealth as real
    && a.resistance.flatResistanceModifiers == config.flatResistances
    && a.resistance.multResistanceModifiers == config.resistanceMultipliers
  }

  /** An enemy actor with the given id after EnemyBattleActor.Initialize(config) on a fresh prefab. */
  predicate EnemyReady(a: BattleActor, id: int, config: EnemyConfig)
    reads a, a.health
  {
    && a.id == id && !a.isPlayerControlled && a.enemyConfig == Some(config) && a.currentSpeed == config.baseSpeed
    && a.health.currentHealth == config.maxHealth as real && a.health.maxHealth == config.maxHealth as real
  }

  /** Player-controlled actors whose liveness flag is set. */
  predicate LivePlayers(s: seq<BattleActor>)
    reads s
  {
    forall i :: 0 <= i < |s| ==> s[i].isPlayerControlled && s[i].aliveFlag
  }

  predicate NoPlayers(s: seq<BattleActor>)
  {
    forall i :: 0 <= i < |s| ==> !s[i].isPlayerControlled
  }

  /** The enemy AI's target among the living players: one random key each, the first smallest key wins. */
  function ChooseTarget(living: seq<BattleActor>, draws: nat -> real, at: nat): (t: BattleActor)
    requires |living| > 0
    ensures t in living
  {
    living[FirstMin(RollKeys(draws, at, |living|))]
  }

  class BattleManager {
    const playerSpawnPoints: nat
    const enemySpawnPoints: nat
    const playerPrefab: Prefab
    const enemyPrefab: Prefab
    const draws: nat -> real

    var state: BattleState
    var activeActors: seq<BattleActor>
    var playerActors: seq<BattleActor>
    var enemyActors: seq<BattleActor>
    var turnOrderQueue: seq<BattleActor>
    var currentActor: Option<BattleActor>
    var playerChosenAction: SoundAction
    var pc: Pc
    var notices: seq<Notice>
    /** Every actor instantiated so far, in order: the calculation events' listeners. */
    var spawned: seq<BattleActor>
    var nextId: int
    var pos: nat

    /**
     * The facts every step keeps: the player list holds only
     * player-controlled, live-flagged actors and the enemy list only AI
     * actors; an attack the AI chose has its definition and its target.
     */
    ghost predicate Valid()
      reads this, playerActors
    {
      && LivePlayers(playerActors) && NoPlayers(enemyActors)
      && (pc.EnemyStrike? ==> pc.action.target.Some? && pc.action.attackDefinition.Some?)
    }

    /** The declared field defaults; no battle is running. */
    constructor (playerSpawnPoints: nat, enemySpawnPoints: nat, playerPrefab: Prefab, enemyPrefab: Prefab, draws: nat -> real)
      ensures Valid()
      ensures this.playerSpawnPoints == playerSpawnPoints && this.enemySpawnPoints == enemySpawnPoints
      ensures this.playerPrefab == playerPrefab && this.enemyPrefab == enemyPrefab && this.draws == draws
      ensures state == CalculatingTurnOrder && pc == Stopped && playerChosenAction == ActionOf(NoAction)
      ensures activeActors == [] && playerActors == [] && enemyActors == [] && turnOrderQueue == [] && currentActor == None
      ensures notices == [] && spawned == [] && nextId == 0 && pos == 0
    {
      this.playerSpawnPoints := playerSpawnPoints;
      this.enemySpawnPoints := enemySpawnPoints;
      this.playerPrefab := playerPrefab;
      this.enemyPrefab := enemyPrefab;
      this.draws := draws;
      state := CalculatingTurnOrder;
      activeActors, playerActors, enemyActors, turnOrderQueue := [], [], [], [];
      currentActor := None;
      playerChosenAction := ActionOf(NoAction);
      pc := Stopped;
      notices, spawned := [], [];
      nextId, pos := 0, 0;
    }

    /** CheckBattleEndConditions: the loss is checked before the win. */
    function CheckBattleEndConditions(): (r: EndResult)
      reads this, playerActors, enemyActors, Healths(playerActors), Healths(enemyActors)
      ensures r == PlayersLose <==> forall i :: 0 <= i < |playerActors| ==> !playerActors[i].IsAlive()
      ensures r == PlayersWin <==>
        (exists i :: 0 <= i < |playerActors| && playerActors[i].IsAlive()) &&
        (forall j :: 0 <= j < |enemyActors| ==> !enemyActors[j].IsAlive())
    {
      EndOf(playerActors, enemyActors)
    }

    /** HandlePlayerActionChosen: stores the action; a waiting player turn goes on at the next Step. */
    method HandlePlayerActionChosen(action: PlayerAction)
      requires Valid()
      requires action.attackDefinition.Some? ==> WellFormed(action.attackDefinition.value)
      modifies this
      ensures Valid()
      ensures playerChosenAction == action
      ensures unchanged(`state, `activeActors, `playerActors, `enemyActors, `turnOrderQueue, `currentActor, `pc, `notices, `spawned, `nextId, `pos)
    {
      playerChosenAction := action;
    }

    /** HandleLeaveBattle: empties the rosters, the queue and the current actor and asks for the overworld; a running loop is not stopped. */
    method HandleLeaveBattle(didWin: bool)
      requires Valid()
      modifies this
      ensures Valid()
      ensures activeActors == [] && playerActors == [] && enemyActors == [] && turnOrderQueue == [] && currentActor == None
      ensures notices == old(notices) + [OverworldRequested]
      ensures unchanged(`state, `playerChosenAction, `pc, `spawned, `nextId, `pos)
    {
      activeActors, playerActors, enemyActors, turnOrderQueue, currentActor, notices :=
        [], [], [], [], None, notices + [OverworldRequested];
    }

    /**
     * SetupBattle: clears the rosters and the queue, spawns one player actor
     * per hero config and then enemies while both configs and spawn points
     * remain, announces the battle and starts the loop. A hero beyond the
     * player spawn points throws once its object is instantiated: the
     * actors spawned so far stay, and no loop starts. Every instantiated
     * actor joins the listeners, in order, with the next id.
     */
    method SetupBattle(config: BattleConfig) returns (thrown: bool)
      requires Valid() && pc == Stopped
      requires forall i :: 0 <= i < |config.enemies| ==> ConfigAttacksWellFormed(config.enemies[i])
      modifies this
      ensures Valid()
      ensures thrown <==> |config.heroes| > playerSpawnPoints
      ensures |playerActors| == if thrown then playerSpawnPoints else |config.heroes|
      ensures forall i :: 0 <= i < |playerActors| ==>
        fresh(playerActors[i]) && HeroReady(playerActors[i], old(nextId) + i, config.heroes[i])
      ensures thrown ==>
        && enemyActors == [] && activeActors == playerActors && pc == Stopped && notices == old(notices)
        && |spawned| == |old(spawned)| + |playerActors| + 1 && spawned[..|spawned| - 1] == old(spawned) + playerActors
        && nextId == old(nextId) + |playerActors| + 1
      ensures !thrown ==>
        && |enemyActors| == (if |config.enemies| < enemySpawnPoints then |config.enemies| else enemySpawnPoints)
        && (forall i :: 0 <= i < |enemyActors| ==>
              fresh(enemyActors[i]) && EnemyReady(enemyActors[i], old(nextId) + |playerActors| + i, config.enemies[i]))
        && activeActors == playerActors + enemyActors
        && spawned == old(spawned) + activeActors && nextId == old(nextId) + |activeActors|
        && pc == LoopHead && notices == old(notices) + [BattleStarted(activeActors)]
      ensures turnOrderQueue == []
      ensures unchanged(`state, `currentActor, `playerChosenAction, `pos)
    {
      var heroes, leaked := SpawnHeroes(config.heroes, nextId);
      thrown := leaked.Some?;
      if thrown {
        Install(heroes, [], [leaked.value], false);
      } else {
        var enemies := SpawnEnemies(config.enemies, nextId + |heroes|);
        Install(heroes, enemies, [], true);
      }
    }

    /**
     * The end of SetupBattle: the new rosters replace the old ones and every
     * new actor, plus an abandoned one when spawning threw, joins the
     * listeners; a battle that got its enemies is announced and its loop
     * starts.
     */
    method Install(heroes: seq<BattleActor>, enemies: seq<BattleActor>, abandoned: seq<BattleActor>, start: bool)
      modifies this
      ensures activeActors == heroes + enemies && playerActors == heroes && enemyActors == enemies && turnOrderQueue == []
      ensures spawned == old(spawned) + heroes + enemies + abandoned
      ensures nextId == old(nextId) + |heroes| + |enemies| + |abandoned|
      ensures notices == old(notices) + (if start then [BattleStarted(heroes + enemies)] else [])
      ensures pc == (if start then LoopHead else old(pc))
      ensures unchanged(`state, `currentActor, `playerChosenAction, `pos)
    {
      activeActors, playerActors, enemyActors, turnOrderQueue, spawned, nextId, notices, pc :=
        heroes + enemies, heroes, enemies, [], spawned + heroes + enemies + abandoned, nextId + |heroes| + |enemies| + |abandoned|,
        notices + (if start then [BattleStarted(heroes + enemies)] else []), if start then LoopHead else pc;
    }

    /**
     * SetupBattle's first loop: a player actor per hero config, ids from
     * `firstId`. The actor for a hero beyond the spawn points is
     * instantiated before the spawn point lookup throws, and is returned
     * apart.
     */
    method SpawnHeroes(heroes: seq<HeroConfig>, firstId: int) returns (actors: seq<BattleActor>, leaked: Option<BattleActor>)
      ensures leaked.Some? <==> |heroes| > playerSpawnPoints
      ensures |actors| == if leaked.Some? then playerSpawnPoints else |heroes|
      ensures forall i :: 0 <= i < |actors| ==> fresh(actors[i]) && HeroReady(actors[i], firstId + i, heroes[i])
      ensures leaked.Some? ==> fresh(leaked.value) && leaked.value.id == firstId + |actors|
    {
      actors := [];
      var i := 0;
      while i < |heroes|
        invariant 0 <= i <= |heroes| && i <= playerSpawnPoints && |actors| == i
        invariant forall k :: 0 <= k < i ==> fresh(actors[k]) && HeroReady(actors[k], firstId + k, heroes[k])
      {
        var actor := new BattleActor(firstId + i, true, playerPrefab);
        if i >= playerSpawnPoints {
          // the spawn point index is out of range
          return actors, Some(actor);
        }
        actor.InitializeHero(heroes[i]);
        actors := actors + [actor];
        i := i + 1;
      }
      leaked := None;
    }

    /** SetupBattle's second loop: an enemy actor per config while spawn points remain, ids from `firstId`. */
    method SpawnEnemies(enemies: seq<EnemyConfig>, firstId: int) returns (actors: seq<BattleActor>)
      requires forall i :: 0 <= i < |enemies| ==> ConfigAttacksWellFormed(enemies[i])
      ensures |actors| == if |enemies| < enemySpawnPoints then |enemies| else enemySpawnPoints
      ensures forall i :: 0 <= i < |actors| ==> fresh(actors[i]) && EnemyReady(actors[i], firstId + i, enemies[i])
    {
      actors := [];
      var i := 0;
      while i < |enemies| && i < enemySpawnPoints
        invariant 0 <= i <= |enemies| && i <= enemySpawnPoints && |actors| == i
        invariant forall k :: 0 <= k < i ==> fresh(actors[k]) && EnemyReady(actors[k], firstId + k, enemies[k])
      {
        var actor := new BattleActor(firstId + i, false, enemyPrefab);
        actor.InitializeEnemy(enemies[i]);
        actors := actors + [actor];
        i := i + 1;
      }
    }

    /** One step of the battle coroutine. */
    method Step()
      requires Valid()
      modifies this, TargetHealths(playerChosenAction), if pc.EnemyStrike? then TargetHealths(pc.action) else {}
      ensures Valid()
      ensures old(pc) == Stopped || old(pc) == Faulted ==> unchanged(this)
      ensures playerActors == old(playerActors)
    {
      match pc {
        case Stopped =>
        case Faulted =>
        case LoopHead => LoopHeadStep();
        case InnerHead => NextTurn();
        case TurnStart(actor) => StartTurn();
        case AwaitingAction => ResumePlayerTurn();
        case EnemyAction(enemy) => EnemyTurnStep();
        case EnemyStrike(enemy, action) => EnemyStrikeStep();
        case TurnEnd => TurnEndStep();
        case Ending => EndingStep();
      }
    }

    /** The outer loop's test: while the battle is undecided, a new round; otherwise the end. */
    method LoopHeadStep()
      requires Valid() && pc == LoopHead
      modifies this
      ensures Valid()
      ensures old(CheckBattleEndConditions()) == Undecided ==>
        && state == CalculatingTurnOrder && turnOrderQueue == old(TurnOrderOf(activeActors)) && pc == InnerHead
      ensures old(CheckBattleEndConditions()) != Undecided ==> pc == Ending && unchanged(`state, `turnOrderQueue)
      ensures unchanged(`activeActors, `playerActors, `enemyActors, `currentActor, `playerChosenAction, `notices, `spawned, `nextId, `pos)
    {
      if CheckBattleEndConditions() == Undecided {
        CalculateTurnOrder();
        pc := InnerHead;
      } else {
        pc := Ending;
      }
    }

    /** CalculateTurnOrder: the queue becomes the living active actors by speed. */
    method CalculateTurnOrder()
      requires Valid()
      modifies this
      ensures Valid()
      ensures state == CalculatingTurnOrder && turnOrderQueue == old(TurnOrderOf(activeActors))
      ensures unchanged(`activeActors, `playerActors, `enemyActors, `currentActor, `playerChosenAction, `pc, `notices, `spawned, `nextId, `pos)
    {
      var sorted := TurnOrderOf(activeActors);
      var queue := [];
      for i := 0 to |sorted|
        invariant queue == sorted[..i]
      {
        queue := queue + [sorted[i]];
      }
      assert queue == sorted;
      state, turnOrderQueue := CalculatingTurnOrder, queue;
    }

    /**
     * The inner loop's test: while actors are queued and the battle is
     * undecided, the next one is dequeued and becomes the current actor; a
     * dead one is skipped with no event.
     */
    method NextTurn()
      requires Valid() && pc == InnerHead
      modifies this
      ensures Valid()
      ensures !(|old(turnOrderQueue)| > 0 && old(CheckBattleEndConditions()) == Undecided) ==>
        pc == LoopHead && unchanged(`turnOrderQueue, `currentActor)
      ensures |old(turnOrderQueue)| > 0 && old(CheckBattleEndConditions()) == Undecided ==>
        && turnOrderQueue == old(turnOrderQueue[1..]) && currentActor == old(Some(turnOrderQueue[0]))
        && pc == old(if turnOrderQueue[0].IsAlive() then TurnStart(turnOrderQueue[0]) else InnerHead)
      ensures unchanged(`state, `activeActors, `playerActors, `enemyActors, `playerChosenAction, `notices, `spawned, `nextId, `pos)
    {
      if !(|turnOrderQueue| > 0 && CheckBattleEndConditions() == Undecided) {
        pc := LoopHead;
        return;
      }
      var actor := turnOrderQueue[0];
      turnOrderQueue, currentActor, pc := turnOrderQueue[1..], Some(actor), if actor.IsAlive() then TurnStart(actor) else InnerHead;
    }

    /**
     * The start of a living actor's turn: announced unless the battle was
     * ended by running; a player turn offers the actor's attacks and the
     * living enemies, resets the chosen action and waits; an enemy turn
     * goes on to the AI.
     */
    method StartTurn()
      requires Valid() && pc.TurnStart?
      modifies this
      ensures Valid()
      ensures var a := old(pc.actor);
        var started := if old(state) != BattleEnd then [TurnStarted(a)] else [];
        && (a.isPlayerControlled ==>
              && state == PlayerTurn && playerChosenAction == ActionOf(NoAction) && pc == AwaitingAction
              && notices == old(notices + started + [AvailableAttacks(a.attacks), AvailableTargets(Living(enemyActors))]))
        && (!a.isPlayerControlled ==>
              state == EnemyTurn && pc == EnemyAction(a) && notices == old(notices) + started
              && playerChosenAction == old(playerChosenAction))
      ensures unchanged(`activeActors, `playerActors, `enemyActors, `turnOrderQueue, `currentActor, `spawned, `nextId, `pos)
    {
      var actor := pc.actor;
      var started := if state != BattleEnd then [TurnStarted(actor)] else [];
      if actor.isPlayerControlled {
        state, playerChosenAction, pc, notices := PlayerTurn, ActionOf(NoAction), AwaitingAction,
          notices + started + [AvailableAttacks(actor.attacks), AvailableTargets(Living(enemyActors))];
      } else {
        state, pc, notices := EnemyTurn, EnemyAction(actor), notices + started;
      }
    }

    /** The damage and the next roll position of an attack by `attacker` on `target`. */
    function Hit(attacker: BattleActor, target: BattleActor, definition: AttackData, at: nat): (real, nat)
      requires WellFormed(definition)
      reads this, Defenses(spawned)
    {
      AttackDamage(attacker.id, target.id, definition, Offenses(spawned), Defenses(spawned), draws, at)
    }

    /**
     * PerformPlayerAction's effect: the state becomes PerformingAction; an
     * Attack with a definition and a living target strikes it; Run ends the
     * battle state and announces a loss without resetting the action; every
     * other action resets the chosen action.
     */
    twostate predicate ActionPerformed(actor: BattleActor, action: SoundAction)
      reads this, TargetHealths(action)
    {
      var run := action.actionType == RunAction;
      && state == (if run then BattleEnd else PerformingAction)
      && notices == old(notices) + (if run then [BattleEnded(false)] else [])
      && playerChosenAction == (if run then old(playerChosenAction) else ActionOf(NoAction))
      && (old(Strikes(action)) ==>
            var hit := old(Hit(actor, action.target.value, action.attackDefinition.value, pos));
            action.target.value.health.currentHealth == Damaged(old(action.target.value.health.currentHealth), hit.0)
            && pos == hit.1)
      && (!old(Strikes(action)) ==> pos == old(pos))
    }

    /**
     * The WaitUntil: nothing happens until an action is chosen; then the
     * action is performed and the turn ends. A battle left while waiting has
     * no current actor, and performing the action throws.
     */
    method ResumePlayerTurn()
      requires Valid() && pc == AwaitingAction
      modifies this, TargetHealths(playerChosenAction)
      ensures Valid()
      ensures old(playerChosenAction).actionType == NoAction ==> unchanged(this)
      ensures old(playerChosenAction).actionType != NoAction && old(currentActor).None? ==>
        state == PerformingAction && pc == Faulted && unchanged(`playerChosenAction, `notices, `pos)
      ensures old(playerChosenAction).actionType != NoAction && old(currentActor).Some? ==>
        pc == TurnEnd && ActionPerformed(old(currentActor).value, old(playerChosenAction))
      ensures unchanged(`activeActors, `playerActors, `enemyActors, `turnOrderQueue, `currentActor, `spawned, `nextId)
    {
      if playerChosenAction.actionType == NoAction {
        return;
      }
      if currentActor.None? {
        // the battle was left while waiting: the action's log line reads a null actor
        state, pc := PerformingAction, Faulted;
        return;
      }
      PerformPlayerAction(currentActor.value, playerChosenAction);
      pc := TurnEnd;
    }

    /** PerformPlayerAction; any other Attack and Defend change nothing but the state. */
    method PerformPlayerAction(actor: BattleActor, action: SoundAction)
      modifies this, TargetHealths(action)
      ensures ActionPerformed(actor, action)
      ensures unchanged(`activeActors, `playerActors, `enemyActors, `turnOrderQueue, `currentActor, `pc, `spawned, `nextId)
    {
      match action.actionType {
        case AttackAction =>
          if action.attackDefinition.Some? && action.target.Some? && action.target.value.IsAlive() {
            var next := Strike(actor, action.target.value, action.attackDefinition.value);
            state, pos, playerChosenAction := PerformingAction, next, ActionOf(NoAction);
          } else {
            state, playerChosenAction := PerformingAction, ActionOf(NoAction);
          }
        case RunAction =>
          state, notices := BattleEnd, notices + [BattleEnded(false)];
        case _ =>
          state, playerChosenAction := PerformingAction, ActionOf(NoAction);
      }
    }

    /** CombatManager.PerformAttack from `attacker` on `target`, with every spawned actor listening. */
    method Strike(attacker: BattleActor, target: BattleActor, definition: AttackData) returns (next: nat)
      requires WellFormed(definition)
      modifies target.health
      ensures var hit := Hit(attacker, target, definition, pos);
        target.health.currentHealth == Damaged(old(target.health.currentHealth), hit.0) && next == hit.1
    {
      var context;
      context, next := PerformAttack(attacker.id, target.id, definition,
                                     Offenses(spawned), Defenses(spawned), target.health, draws, pos);
    }

    /**
     * PerformEnemyAction up to the attack: the target is the living player
     * with the first smallest random key, one key per living player, and the
     * enemy's AI chooses against it. Its Defend fallback has no definition,
     * whose name the log line reads, so it throws, as an empty attack list
     * does. With no living player the turn passes.
     */
    method EnemyTurnStep()
      requires Valid() && pc.EnemyAction?
      modifies this
      ensures Valid()
      ensures var living := old(Living(playerActors));
        && (|living| == 0 ==> pc == TurnEnd && pos == old(pos))
        && (|living| > 0 ==>
              var choice := old(pc.enemy.ChooseAIAction(ChooseTarget(living, draws, pos)));
              && pos == old(pos) + |living|
              && (choice.Failure? || choice.value.actionType != AttackAction ==> pc == Faulted)
              && (choice.Success? && choice.value.actionType == AttackAction ==> pc == EnemyStrike(old(pc.enemy), choice.value)))
      ensures state == PerformingAction
      ensures unchanged(`activeActors, `playerActors, `enemyActors, `turnOrderQueue, `currentActor, `playerChosenAction, `notices, `spawned, `nextId)
    {
      var enemy := pc.enemy;
      var living := Living(playerActors);
      if |living| == 0 {
        state, pc := PerformingAction, TurnEnd;
        return;
      }
      var choice := enemy.ChooseAIAction(ChooseTarget(living, draws, pos));
      state, pos := PerformingAction, pos + |living|;
      if choice.Failure? || choice.value.actionType != AttackAction {
        pc := Faulted;
      } else {
        pc := EnemyStrike(enemy, choice.value);
      }
    }

    /** The AI's attack on its target, a living player; then the turn ends. */
    method EnemyStrikeStep()
      requires Valid() && pc.EnemyStrike?
      modifies this, TargetHealths(pc.action)
      ensures Valid()
      ensures var target, hit := old(pc.action.target.value), old(Hit(pc.enemy, pc.action.target.value, pc.action.attackDefinition.value, pos));
        target.health.currentHealth == Damaged(old(target.health.currentHealth), hit.0) && pos == hit.1
      ensures pc == TurnEnd
      ensures unchanged(`state, `activeActors, `playerActors, `enemyActors, `turnOrderQueue, `currentActor, `playerChosenAction, `notices, `spawned, `nextId)
    {
      var target := pc.action.target.value;
      pos := Strike(pc.enemy, target, pc.action.attackDefinition.value);
      pc := TurnEnd;
    }

    /** The end of a turn: the turn-end event unless the battle was ended by running, then the rosters are pruned. */
    method TurnEndStep()
      requires Valid() && pc == TurnEnd
      modifies this
      ensures Valid()
      ensures notices == old(notices + (if state != BattleEnd then [TurnEnded(currentActor)] else []))
      ensures activeActors == old(Living(activeActors)) && enemyActors == old(LivingEnemies(enemyActors))
      ensures playerActors == old(PlayerControlled(playerActors)) == old(playerActors)
      ensures pc == InnerHead
      ensures unchanged(`state, `turnOrderQueue, `currentActor, `playerChosenAction, `spawned, `nextId, `pos)
    {
      var active, enemies := Living(activeActors), LivingEnemies(enemyActors);
      PlayerControlledKeepsAll(playerActors);
      if state != BattleEnd {
        notices := notices + [TurnEnded(currentActor)];
      }
      activeActors, enemyActors, pc := active, enemies, InnerHead;
    }

    /** After the loop: the final result is announced, and the state becomes BattleEnd. */
    method EndingStep()
      requires Valid() && pc == Ending
      modifies this
      ensures Valid()
      ensures state == BattleEnd && pc == Stopped
      ensures notices == old(notices + [BattleEnded(CheckBattleEndConditions() == PlayersWin)])
      ensures unchanged(`activeActors, `playerActors, `enemyActors, `turnOrderQueue, `currentActor, `playerChosenAction, `spawned, `nextId, `pos)
    {
      var result := CheckBattleEndConditions();
      state, pc, notices := BattleEnd, Stopped, notices + [BattleEnded(result == PlayersWin)];
    }

    /** Player actors stay alive, so a battle with one player on the list is never lost. */
    lemma PlayersNeverLose()
      requires Valid() && |playerActors| > 0
      ensures CheckBattleEndConditions() != PlayersLose
    {
      assert playerActors[0].IsAlive();
    }
  }
}
