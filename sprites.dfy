/**
 * Sprite-sheet animation of a battle character
 * (Assets/Scripts/SpriteCharacter2D.cs) and the sheet asset it plays
 * (Assets/Scripts/Configs/SpriteBookConfig.cs).
 *
 * The class keeps the character's fields; every method that changes them is
 * proved against a function from the old fields (a `Look`) to the new ones.
 * The fallback table is a static field shared by every character, so it is
 * an object of its own that each character points to. Texture, UV and
 * material calls are left out; UpdateFrame returns the sheet cell it would
 * show. Random.Range's value is the parameter `pick`.
 */
module Sprites {
  import W = Wrappers
  import opened CsMath

  datatype BattleSpriteState = None | Idle | Defend | Walk | Run | Jump | Attack | Critical | Hurt | Die

  datatype AnimPlayback = Loop | PlayOnce | PlayThenStop

  /** GetPlaybackTypeFromAnimation: which way a sheet of each animation plays. */
  function PlaybackTypeFromAnimation(anim: BattleSpriteState): (p: AnimPlayback)
    ensures p == PlayThenStop <==> anim == Die
    ensures p == PlayOnce <==> anim in {Defend, Jump, Attack, Critical, Hurt}
    ensures p == Loop <==> anim in {None, Idle, Walk, Run}
  {
    match anim
    case None | Idle | Walk | Run => Loop
    case Defend | Jump | Attack | Critical | Hurt => PlayOnce
    case Die => PlayThenStop
  }

  /** A SpriteBookConfig without its texture: the animation, the sheet's grid and its frame rate. */
  datatype SpriteBookConfig = SpriteBookConfig(animationType: BattleSpriteState, columns: int, rows: int, framesPerSecond: real)
  {
    /** The playback type is derived from the animation alone. */
    function PlaybackType(): AnimPlayback
    {
      PlaybackTypeFromAnimation(animationType)
    }

    function TotalFrames(): int
    {
      columns * rows
    }
  }

  /** What LoadFromConfig reads from an ActorConfig: the name, the sheets, and whether it is an EnemyConfig. */
  datatype SpriteSource = SpriteSource(actorName: string, animations: seq<W.Option<SpriteBookConfig>>, isEnemyConfig: bool)

  // ----- The animation map -----

  /** The non-null sheets for animation `s`, in list order. */
  function BooksOf(books: seq<W.Option<SpriteBookConfig>>, s: BattleSpriteState): seq<SpriteBookConfig>
  {
    if |books| == 0 then []
    else
      var last := books[|books| - 1];
      BooksOf(books[..|books| - 1], s) + (if last.Some? && last.value.animationType == s then [last.value] else [])
  }

  /** The map BuildAnimationMap produces: each non-null sheet appended to its animation's list. */
  function Grouped(books: seq<W.Option<SpriteBookConfig>>): map<BattleSpriteState, seq<SpriteBookConfig>>
  {
    if |books| == 0 then map[]
    else
      var m := Grouped(books[..|books| - 1]);
      var last := books[|books| - 1];
      if last.None? then m
      else
        var t := last.value.animationType;
        m[t := (if t in m then m[t] else []) + [last.value]]
  }

  /** The map has an entry exactly for the animations with a sheet, holding those sheets in list order. */
  lemma {:induction false} GroupedEntries(books: seq<W.Option<SpriteBookConfig>>, s: BattleSpriteState)
    ensures s in Grouped(books) <==> |BooksOf(books, s)| > 0
    ensures s in Grouped(books) ==> Grouped(books)[s] == BooksOf(books, s)
  {
    if |books| > 0 {
      GroupedEntries(books[..|books| - 1], s);
    }
  }

  // ----- The fallback search -----

  /** The fallback table the game starts with. */
  function InitialFallbacks(): map<BattleSpriteState, seq<BattleSpriteState>>
  {
    map[Critical := [Attack], Run := [Walk, Idle], Defend := [Jump, Idle]]
  }

  function Remaining(table: map<BattleSpriteState, seq<BattleSpriteState>>, s: BattleSpriteState): nat
  {
    if s in table then |table[s]| else 0
  }

  /**
   * Play's search: the first state from `s` on that has a sheet, following
   * each state's first fallback, and the fallback table afterwards. Each step
   * stores the unread rest of the list under the state it moves to, so the
   * list read next is shorter and the search ends.
   */
  function Search(books: map<BattleSpriteState, seq<SpriteBookConfig>>, table: map<BattleSpriteState, seq<BattleSpriteState>>,
                  s: BattleSpriteState): (r: (W.Option<BattleSpriteState>, map<BattleSpriteState, seq<BattleSpriteState>>))
    ensures r.0.Some? ==> r.0.value in books && |books[r.0.value]| > 0
    ensures table.Keys <= r.1.Keys
    decreases Remaining(table, s)
  {
    if s in books && |books[s]| > 0 then (W.Some(s), table)
    else if s in table && |table[s]| > 0 then
      var next := table[s][0];
      Search(books, table[next := table[s][1..]], next)
    else (W.None, table)
  }

  /** The search leaves the entries of states it never moves to as they were. */
  lemma {:induction false} SearchKeepsOthers(books: map<BattleSpriteState, seq<SpriteBookConfig>>,
                                             table: map<BattleSpriteState, seq<BattleSpriteState>>, s: BattleSpriteState,
                                             other: BattleSpriteState)
    requires other in table && other !in Reached(books, table, s)
    ensures other in Search(books, table, s).1 && Search(books, table, s).1[other] == table[other]
    decreases Remaining(table, s)
  {
    if !(s in books && |books[s]| > 0) && s in table && |table[s]| > 0 {
      var next := table[s][0];
      SearchKeepsOthers(books, table[next := table[s][1..]], next, other);
    }
  }

  /** The states the search moves to after `s`. */
  function Reached(books: map<BattleSpriteState, seq<SpriteBookConfig>>, table: map<BattleSpriteState, seq<BattleSpriteState>>,
                   s: BattleSpriteState): set<BattleSpriteState>
    decreases Remaining(table, s)
  {
    if s in books && |books[s]| > 0 then {}
    else if s in table && |table[s]| > 0 then
      var next := table[s][0];
      {next} + Reached(books, table[next := table[s][1..]], next)
    else {}
  }

  /** A character with only Idle sheets. */
  function IdleOnly(): map<BattleSpriteState, seq<SpriteBookConfig>>
  {
    map[Idle := [SpriteBookConfig(Idle, 4, 1, 6.0)]]
  }

  /**
   * The search writes into the table shared by every character: playing Run
   * on a character with only Idle sheets falls back through Walk to Idle and
   * leaves Walk with the fallback Idle, which it did not have (and Idle with
   * an empty list). From then on, playing Walk on a character without Walk
   * sheets falls back to Idle too.
   */
  lemma FallbackTableLeaks()
    ensures Search(IdleOnly(), InitialFallbacks(), Walk) == (W.None, InitialFallbacks())
    ensures var (found, table) := Search(IdleOnly(), InitialFallbacks(), Run);
      && found == W.Some(Idle)
      && table == InitialFallbacks()[Walk := [Idle]][Idle := []]
      && Search(IdleOnly(), table, Walk).0 == W.Some(Idle)
  {
    var t0 := InitialFallbacks();
    var t1 := t0[Walk := [Idle]];
    var t2 := t1[Idle := []];
    assert Search(IdleOnly(), t0, Run) == Search(IdleOnly(), t1, Walk);
    assert Search(IdleOnly(), t1, Walk) == Search(IdleOnly(), t2, Idle) == (W.Some(Idle), t2);
    assert Search(IdleOnly(), t2, Walk) == Search(IdleOnly(), t2[Idle := []], Idle);
  }

  /** One sheet of a non-empty list: the only one, or the one at the random index. */
  function Pick(list: seq<SpriteBookConfig>, pick: nat): (b: SpriteBookConfig)
    requires |list| > 0
    ensures b in list
    ensures |list| == 1 ==> b == list[0]
  {
    if |list| == 1 then list[0] else list[pick % |list|]
  }

  // ----- Frame stepping -----

  /** The frame is due once the time since the last one reaches 1 / rate; a zero rate divides to infinity. */
  predicate Due(frameTime: real, rate: real)
  {
    rate != 0.0 && frameTime >= 1.0 / rate
  }

  /**
   * The switch in Update: the next frame index for a playback type, and
   * whether a play-once or play-then-stop sheet ran past its last frame.
   * `%` by zero frames throws.
   */
  function FrameStep(playback: AnimPlayback, index: int, total: int): W.Result<(int, bool)>
  {
    match playback
    case Loop => if total == 0 then W.Failure("divide by zero") else W.Success((CsRem(index + 1, total), false))
    case PlayOnce | PlayThenStop => if index + 1 >= total then W.Success((total - 1, true)) else W.Success((index + 1, false))
  }

  /** On a non-empty sheet every playback type keeps the index on the sheet. */
  lemma FrameStepInRange(playback: AnimPlayback, index: int, total: int)
    requires 0 <= index < total
    ensures FrameStep(playback, index, total).Success?
    ensures var (i, ended) := FrameStep(playback, index, total).value; 0 <= i < total
  {
  }

  /** A looping sheet wraps from its last frame to its first; the index otherwise advances by one. */
  lemma LoopWraps(index: int, total: int)
    requires 0 <= index < total
    ensures FrameStep(Loop, index, total) == W.Success((if index == total - 1 then 0 else index + 1, false))
  {
    AgreeOnNatural(index + 1, total);
  }

  /** A play-then-stop sheet at its last frame stays there, and reports the end each time. */
  lemma StopHolds(total: int)
    ensures FrameStep(PlayThenStop, total - 1, total) == W.Success((total - 1, true))
  {
  }

  /** What UpdateFrame would show: nothing without a sheet, else the column and row of the index. */
  datatype Frame = NoFrame | Cell(u: int, v: int) | DivideByZero

  function FrameOf(book: W.Option<SpriteBookConfig>, index: int): Frame
  {
    if book.None? then NoFrame
    else if book.value.columns == 0 then DivideByZero
    else Cell(CsRem(index, book.value.columns), CsDiv(index, book.value.columns))
  }

  /** An index on a sheet splits into a column of the sheet and a row of the sheet, row-major. */
  lemma FrameCellOnSheet(book: SpriteBookConfig, index: int)
    requires book.columns > 0 && 0 <= index < book.TotalFrames()
    ensures var f := FrameOf(W.Some(book), index);
      && f.Cell? && 0 <= f.u < book.columns && 0 <= f.v < book.rows
      && f.v * book.columns + f.u == index
  {
    var c := book.columns;
    AgreeOnNatural(index, c);
    var u, v := index % c, index / c;
    assert index == v * c + u;
    assert book.TotalFrames() == book.rows * c;
    if v >= book.rows {
      MulMonotone(book.rows, v, c);
      assert false;
    }
  }

  lemma MulMonotone(a: int, b: int, c: int)
    requires a <= b && c > 0
    ensures a * c <= b * c
  {
  }

  // ----- The character -----

  /** The fields of a character that its methods change, and the shared fallback table. */
  datatype Look = Look(
    characterName: string,
    animations: W.Option<seq<W.Option<SpriteBookConfig>>>,
    isFlipped: bool,
    currentState: BattleSpriteState,
    loopState: BattleSpriteState,
    animationMap: W.Option<map<BattleSpriteState, seq<SpriteBookConfig>>>,
    activeBook: W.Option<SpriteBookConfig>,
    index: int,
    frameTime: real,
    fallbacks: map<BattleSpriteState, seq<BattleSpriteState>>)

  /** BuildAnimationMap: a new map grouping the sheets, empty when the list is null. */
  function Built(s: Look): Look
  {
    s.(animationMap := W.Some(Grouped(if s.animations.None? then [] else s.animations.value)))
  }

  /** Play builds the map first when there is none. */
  function Prepared(s: Look): (r: Look)
    ensures r.animationMap.Some?
  {
    if s.animationMap.None? then Built(s) else s
  }

  /**
   * The found sheet shown from its first frame; a Loop sheet also becomes the
   * loop state. The closing UpdateFrame throws, after the fields are set, when
   * the sheet has no columns: the second component.
   */
  function Shown(s: Look, found: W.Option<BattleSpriteState>, pick: nat): (Look, bool)
    requires s.animationMap.Some?
    requires found.Some? ==> found.value in s.animationMap.value && |s.animationMap.value[found.value]| > 0
  {
    if found.None? then (s, false)
    else
      var book := Pick(s.animationMap.value[found.value], pick);
      var r := s.(activeBook := W.Some(book), currentState := found.value, index := 0, frameTime := 0.0,
                  loopState := if book.PlaybackType() == Loop then found.value else s.loopState);
      (r, FrameOf(r.activeBook, r.index).DivideByZero?)
  }

  /** Play(state): the new fields, and whether it threw. */
  function Played(s: Look, state: BattleSpriteState, pick: nat): (Look, bool)
  {
    if s.currentState == state then (s, false)
    else
      var s1 := Prepared(s);
      var (found, table) := Search(s1.animationMap.value, s1.fallbacks, state);
      Shown(s1.(fallbacks := table), found, pick)
  }

  /** ResetState: back to state 0 (None) at the first frame. */
  function ResetStateOf(s: Look): Look
  {
    s.(currentState := None, index := 0, frameTime := 0.0)
  }

  /** LoadFromConfig: the new fields, and whether its Play threw; a null config changes nothing. */
  function Loaded(s: Look, config: W.Option<SpriteSource>, pick: nat): (Look, bool)
  {
    if config.None? then (s, false)
    else
      var c := config.value;
      var s1 := ResetStateOf(Built(s.(characterName := c.actorName, animations := W.Some(c.animations), isFlipped := c.isEnemyConfig)));
      if Idle in s1.animationMap.value then Played(s1, Idle, pick)
      else if Walk in s1.animationMap.value then Played(s1, Walk, pick)
      else (s1.(activeBook := W.None), false)
  }

  /** ResetCharacter: the new fields; the lists are cleared only where they exist. */
  function ResetCharacterOf(s: Look): Look
  {
    ResetStateOf(s.(characterName := "Unnamed",
                    animations := if s.animations.None? then W.None else W.Some([]),
                    activeBook := W.None,
                    animationMap := if s.animationMap.None? then W.None else W.Some(map[])))
  }

  /** The end of a due frame: the cell is drawn and the timer restarts, unless drawing threw. */
  function Drawn(s: Look): (Look, bool)
  {
    if FrameOf(s.activeBook, s.index).DivideByZero? then (s, true)
    else (s.(frameTime := 0.0), false)
  }

  /** A due frame of the active sheet: the step, the hand-over of a finished play-once sheet, the drawing. */
  function Advanced(s: Look, pick: nat): (Look, bool)
    requires s.activeBook.Some?
  {
    var book := s.activeBook.value;
    match FrameStep(book.PlaybackType(), s.index, book.TotalFrames())
    case Failure(_) => (s, true)
    case Success((i, ended)) =>
      var s2 := s.(index := i);
      if ended && book.PlaybackType() == PlayThenStop then (s2, false)
      else if ended then
        var (s3, thrown) := Played(s2, s2.loopState, pick);
        if thrown then (s3, true) else Drawn(s3)
      else Drawn(s2)
  }

  /** Update(deltaTime): the new fields, and whether the frame threw. */
  function Updated(s: Look, deltaTime: real, pick: nat, speedMult: real, hasPlaceholder: bool): (Look, bool)
  {
    if s.activeBook.None? then (s.(isFlipped := s.isFlipped && !hasPlaceholder), false)
    else
      var s1 := s.(frameTime := s.frameTime + deltaTime);
      if !Due(s1.frameTime, s.activeBook.value.framesPerSecond * speedMult) then (s1, false)
      else Advanced(s1, pick)
  }

  /** Every sheet listed for an animation is of that animation. */
  lemma {:induction false} BooksOfType(books: seq<W.Option<SpriteBookConfig>>, s: BattleSpriteState, b: SpriteBookConfig)
    requires b in BooksOf(books, s)
    ensures b.animationType == s
  {
    if |books| > 0 {
      var init := books[..|books| - 1];
      if b in BooksOf(init, s) {
        BooksOfType(init, s, b);
      }
    }
  }

  /**
   * Playing the current state again changes nothing; otherwise the table is
   * the search's and a found state starts from its first frame. Play throws
   * exactly when the sheet it settles on has no columns.
   */
  lemma PlayOutcome(s: Look, state: BattleSpriteState, pick: nat)
    requires s.animationMap.Some?
    ensures s.currentState == state ==> Played(s, state, pick) == (s, false)
    ensures s.currentState != state ==>
      var (found, table) := Search(s.animationMap.value, s.fallbacks, state);
      var (r, thrown) := Played(s, state, pick);
      && r.fallbacks == table && r.animationMap == s.animationMap
      && (found.None? ==> r == s.(fallbacks := table) && !thrown)
      && (found.Some? ==>
            && r.currentState == found.value && r.index == 0 && r.frameTime == 0.0
            && r.activeBook.Some? && r.activeBook.value in s.animationMap.value[found.value]
            && (r.loopState == found.value || (r.loopState == s.loopState && r.activeBook.value.PlaybackType() != Loop))
            && (thrown <==> r.activeBook.value.columns == 0))
  {
  }

  /** A state with a sheet of its own is shown directly, and the fallback table is left alone. */
  lemma PlayDirect(s: Look, state: BattleSpriteState, pick: nat)
    requires s.animationMap.Some? && s.currentState != state
    requires state in s.animationMap.value && |s.animationMap.value[state]| > 0
    ensures var book := Pick(s.animationMap.value[state], pick);
      Played(s, state, pick) == (s.(activeBook := W.Some(book), currentState := state, index := 0, frameTime := 0.0,
                                    loopState := if book.PlaybackType() == Loop then state else s.loopState),
                                 book.columns == 0)
  {
  }

  /** Loading shows the first available of `state`'s sheets: from the first frame, as the loop state. */
  lemma LoadShows(s: Look, c: SpriteSource, pick: nat, state: BattleSpriteState)
    requires state == Idle || state == Walk
    requires |BooksOf(c.animations, state)| > 0
    ensures var s1 := ResetStateOf(Built(s.(characterName := c.actorName, animations := W.Some(c.animations), isFlipped := c.isEnemyConfig)));
      var (r, thrown) := Played(s1, state, pick);
      && r.currentState == state && r.loopState == state && r.index == 0 && r.fallbacks == s.fallbacks
      && r.activeBook == W.Some(Pick(BooksOf(c.animations, state), pick))
      && (thrown <==> r.activeBook.value.columns == 0)
  {
    GroupedEntries(c.animations, state);
    var s1 := ResetStateOf(Built(s.(characterName := c.actorName, animations := W.Some(c.animations), isFlipped := c.isEnemyConfig)));
    PlayDirect(s1, state, pick);
    BooksOfType(c.animations, state, Pick(BooksOf(c.animations, state), pick));
  }

  /**
   * Loading a config shows an Idle sheet when there is one, else a Walk
   * sheet when there is one, else nothing; the sheet starts at its first
   * frame and, both being looping animations, becomes the loop state.
   * Loading throws exactly when the sheet shown has no columns.
   */
  lemma LoadOutcome(s: Look, c: SpriteSource, pick: nat)
    ensures var (r, thrown) := Loaded(s, W.Some(c), pick);
      && r.characterName == c.actorName && r.isFlipped == c.isEnemyConfig && r.fallbacks == s.fallbacks
      && (thrown <==> r.activeBook.Some? && r.activeBook.value.columns == 0)
      && (|BooksOf(c.animations, Idle)| > 0 ==>
            && r.currentState == Idle && r.loopState == Idle && r.index == 0
            && r.activeBook == W.Some(Pick(BooksOf(c.animations, Idle), pick)))
      && (|BooksOf(c.animations, Idle)| == 0 && |BooksOf(c.animations, Walk)| > 0 ==>
            && r.currentState == Walk && r.loopState == Walk && r.index == 0
            && r.activeBook == W.Some(Pick(BooksOf(c.animations, Walk), pick)))
      && (|BooksOf(c.animations, Idle)| == 0 && |BooksOf(c.animations, Walk)| == 0 ==>
            r.currentState == None && r.activeBook == W.None)
  {
    GroupedEntries(c.animations, Idle);
    GroupedEntries(c.animations, Walk);
    if |BooksOf(c.animations, Idle)| > 0 {
      LoadShows(s, c, pick, Idle);
    } else if |BooksOf(c.animations, Walk)| > 0 {
      LoadShows(s, c, pick, Walk);
    }
  }

  /**
   * A due frame keeps a looping or play-then-stop sheet on the sheet, and
   * only a play-once sheet that ran out hands over to the loop state.
   */
  lemma UpdateKeepsFrameOnSheet(s: Look, deltaTime: real, pick: nat, speedMult: real, hasPlaceholder: bool)
    requires s.activeBook.Some? && s.activeBook.value.PlaybackType() != PlayOnce
    requires 0 <= s.index < s.activeBook.value.TotalFrames()
    ensures var (r, faulted) := Updated(s, deltaTime, pick, speedMult, hasPlaceholder);
      && r.activeBook == s.activeBook && r.currentState == s.currentState
      && 0 <= r.index < s.activeBook.value.TotalFrames()
  {
    var book := s.activeBook.value;
    FrameStepInRange(book.PlaybackType(), s.index, book.TotalFrames());
  }

  /** The fallback table every character shares (the static fallbackMap). */
  class FallbackTable {
    var entries: map<BattleSpriteState, seq<BattleSpriteState>>

    constructor ()
      ensures entries == InitialFallbacks()
    {
      entries := InitialFallbacks();
    }
  }

  class SpriteCharacter2D {
    const fallbacks: FallbackTable
    const speedMult: real
    /** Whether placeholderTex is set. */
    const hasPlaceholder: bool
    var characterName: string
    var animations: W.Option<seq<W.Option<SpriteBookConfig>>>
    var isFlipped: bool
    var currentState: BattleSpriteState
    var loopState: BattleSpriteState
    var animationMap: W.Option<map<BattleSpriteState, seq<SpriteBookConfig>>>
    var activeBook: W.Option<SpriteBookConfig>
    var index: int
    var frameTime: real

    function State(): Look
      reads this, fallbacks
    {
      Look(characterName, animations, isFlipped, currentState, loopState, animationMap, activeBook, index, frameTime, fallbacks.entries)
    }

    /** The component as the scene creates it, before OnEnable builds the map. */
    constructor (fallbacks: FallbackTable, animations: W.Option<seq<W.Option<SpriteBookConfig>>>, speedMult: real, hasPlaceholder: bool)
      ensures this.fallbacks == fallbacks && this.speedMult == speedMult && this.hasPlaceholder == hasPlaceholder
      ensures State() == Look("Unnamed", animations, false, None, None, W.None, W.None, 0, 0.0, fallbacks.entries)
    {
      this.fallbacks := fallbacks;
      this.speedMult := speedMult;
      this.hasPlaceholder := hasPlaceholder;
      characterName := "Unnamed";
      this.animations := animations;
      isFlipped := false;
      currentState := None;
      loopState := None;
      animationMap := W.None;
      activeBook := W.None;
      index := 0;
      frameTime := 0.0;
    }

    /** BuildAnimationMap, which OnEnable calls. */
    method BuildAnimationMap()
      modifies this
      ensures State() == Built(old(State()))
    {
      var m: map<BattleSpriteState, seq<SpriteBookConfig>> := map[];
      if animations.Some? {
        var list := animations.value;
        for i := 0 to |list|
          invariant m == Grouped(list[..i])
        {
          assert list[..i + 1][..i] == list[..i];
          var anim := list[i];
          if anim.Some? {
            var t := anim.value.animationType;
            if t !in m {
              m := m[t := []];
            }
            m := m[t := m[t] + [anim.value]];
          }
        }
        assert list[..|list|] == list;
      }
      animationMap := W.Some(m);
    }

    /** Play(state): the search through fallbacks, then the found sheet from its first frame; `thrown` when its UpdateFrame throws. */
    method Play(state: BattleSpriteState, pick: nat) returns (thrown: bool)
      modifies this, fallbacks
      ensures (State(), thrown) == Played(old(State()), state, pick)
    {
      thrown := false;
      if currentState == state {
        return;
      }
      ghost var s0 := State();
      if animationMap.None? {
        BuildAnimationMap();
      }
      ghost var s1 := State();
      assert s1 == Prepared(s0);
      var found := FindBook(state);
      ghost var s2 := State();
      assert s2 == s1.(fallbacks := fallbacks.entries);
      assert (found, s2.fallbacks) == Search(s1.animationMap.value, s1.fallbacks, state);
      thrown := ShowBook(found, pick);
      assert (State(), thrown) == Shown(s2, found, pick);
    }

    /** Play's loop: the requested state, or the fallbacks in turn, until one has a sheet or none is left. */
    method FindBook(state: BattleSpriteState) returns (found: W.Option<BattleSpriteState>)
      requires animationMap.Some?
      modifies fallbacks
      ensures (found, fallbacks.entries) == Search(animationMap.value, old(fallbacks.entries), state)
    {
      var books := animationMap.value;
      var currentTry := state;
      var done := false;
      found := W.None;
      while !done
        invariant found.Some? ==> done
        invariant !done ==> Search(books, fallbacks.entries, currentTry) == Search(books, old(fallbacks.entries), state)
        invariant done ==> (found, fallbacks.entries) == Search(books, old(fallbacks.entries), state)
        decreases !done, Remaining(fallbacks.entries, currentTry)
      {
        if currentTry in books && |books[currentTry]| > 0 {
          found, done := W.Some(currentTry), true;
        } else if currentTry in fallbacks.entries && |fallbacks.entries[currentTry]| > 0 {
          var list := fallbacks.entries[currentTry];
          currentTry := list[0];
          fallbacks.entries := fallbacks.entries[currentTry := list[1..]];
        } else {
          done := true;
        }
      }
    }

    /**
     * The found branch of Play's loop: the sheet, the state, the first frame,
     * the loop state of a Loop sheet, then UpdateFrame, which throws on a
     * sheet with no columns.
     */
    method ShowBook(found: W.Option<BattleSpriteState>, pick: nat) returns (thrown: bool)
      requires animationMap.Some?
      requires found.Some? ==> found.value in animationMap.value && |animationMap.value[found.value]| > 0
      modifies this
      ensures (State(), thrown) == Shown(old(State()), found, pick)
    {
      thrown := false;
      if found.Some? {
        var bookList := animationMap.value[found.value];
        var book := if |bookList| == 1 then bookList[0] else bookList[pick % |bookList|];
        activeBook := W.Some(book);
        currentState := found.value;
        index := 0;
        frameTime := 0.0;
        if book.PlaybackType() == Loop {
          loopState := found.value;
        }
        var f := UpdateFrame();
        thrown := f.DivideByZero?;
      }
    }

    /** Start: play Idle. */
    method Start(pick: nat) returns (thrown: bool)
      modifies this, fallbacks
      ensures (State(), thrown) == Played(old(State()), Idle, pick)
    {
      thrown := Play(Idle, pick);
    }

    /** UpdateFrame: the cell of the sheet the index shows; a sheet with no columns throws. */
    method UpdateFrame() returns (f: Frame)
      ensures f == FrameOf(activeBook, index)
      ensures f.Cell? && activeBook.value.columns > 0 && 0 <= index < activeBook.value.TotalFrames() ==>
        0 <= f.u < activeBook.value.columns && 0 <= f.v < activeBook.value.rows
    {
      if activeBook.None? {
        return NoFrame;
      }
      var columns := activeBook.value.columns;
      if columns == 0 {
        return DivideByZero;
      }
      f := Cell(CsRem(index, columns), CsDiv(index, columns));
      if columns > 0 && 0 <= index < activeBook.value.TotalFrames() {
        FrameCellOnSheet(activeBook.value, index);
      }
    }

    /** Update: the placeholder branch, or the frame timer and, when a frame is due, the step. */
    method Update(deltaTime: real, pick: nat) returns (faulted: bool)
      modifies this, fallbacks
      ensures (State(), faulted) == Updated(old(State()), deltaTime, pick, speedMult, hasPlaceholder)
    {
      faulted := false;
      if activeBook.None? {
        if hasPlaceholder {
          if isFlipped {
            isFlipped := false;
          }
        }
        return;
      }
      frameTime := frameTime + deltaTime;
      if !Due(frameTime, activeBook.value.framesPerSecond * speedMult) {
        return;
      }
      faulted := Advance(pick);
    }

    /** The body of Update's due-frame branch: the switch on the playback type, then UpdateFrame and the timer reset. */
    method Advance(pick: nat) returns (faulted: bool)
      requires activeBook.Some?
      modifies this, fallbacks
      ensures (State(), faulted) == Advanced(old(State()), pick)
    {
      ghost var s0 := State();
      var book := activeBook.value;
      var totalFrames := book.columns * book.rows;
      var playback := book.PlaybackType();
      if playback == Loop {
        if totalFrames == 0 {
          return true;
        }
        index := CsRem(index + 1, totalFrames);
        assert State() == s0.(index := index);
      } else if playback == PlayOnce {
        index := index + 1;
        if index >= totalFrames {
          index := totalFrames - 1;
          ghost var s2 := State();
          assert s2 == s0.(index := index) && FrameStep(playback, s0.index, totalFrames) == W.Success((index, true));
          var thrown := Play(loopState, pick);
          assert (State(), thrown) == Played(s2, s2.loopState, pick);
          if thrown {
            return true;
          }
        } else {
          assert State() == s0.(index := index);
        }
      } else {
        index := index + 1;
        if index >= totalFrames {
          index := totalFrames - 1;
          return false;
        }
        assert State() == s0.(index := index);
      }
      faulted := Draw();
    }

    /** UpdateFrame, then the timer reset that follows it. */
    method Draw() returns (faulted: bool)
      modifies this
      ensures (State(), faulted) == Drawn(old(State()))
    {
      var f := UpdateFrame();
      if f.DivideByZero? {
        return true;
      }
      frameTime := 0.0;
      return false;
    }

    /** LoadFromConfig: the config's name, sheets and side, a rebuilt map, and Idle or Walk shown; `thrown` when that Play throws. */
    method LoadFromConfig(config: W.Option<SpriteSource>, pick: nat) returns (thrown: bool)
      modifies this, fallbacks
      ensures (State(), thrown) == Loaded(old(State()), config, pick)
    {
      thrown := false;
      if config.None? {
        return;
      }
      ghost var s0 := State();
      var c := config.value;
      characterName := c.actorName;
      animations := W.Some(c.animations);
      isFlipped := c.isEnemyConfig;
      assert State() == s0.(characterName := c.actorName, animations := W.Some(c.animations), isFlipped := c.isEnemyConfig);
      BuildAnimationMap();
      currentState, index, frameTime := None, 0, 0.0;
      assert State() == ResetStateOf(Built(s0.(characterName := c.actorName, animations := W.Some(c.animations), isFlipped := c.isEnemyConfig)));
      if Idle in animationMap.value {
        thrown := Play(Idle, pick);
      } else if Walk in animationMap.value {
        thrown := Play(Walk, pick);
      } else {
        activeBook := W.None;
      }
    }

    /** ResetCharacter: back to the unnamed character with no sheet. */
    method ResetCharacter()
      modifies this
      ensures State() == ResetCharacterOf(old(State()))
    {
      characterName := "Unnamed";
      if animations.Some? {
        animations := W.Some([]);
      }
      activeBook := W.None;
      if animationMap.Some? {
        animationMap := W.Some(map[]);
      }
      currentState, index, frameTime := None, 0, 0.0;
    }

    /** GetAvailableStates: the animations that have a sheet, building the map first if needed. */
    method GetAvailableStates() returns (r: set<BattleSpriteState>)
      modifies this
      ensures State() == if old(animationMap).None? then Built(old(State())) else old(State())
      ensures r == animationMap.value.Keys
    {
      if animationMap.None? {
        BuildAnimationMap();
      }
      r := animationMap.value.Keys;
    }
  }
}
