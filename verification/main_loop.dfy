/**
 * The coordination done by main.rs: the menu's state machine, the queue of
 * pending turns, the tick interval, the per-pass update of a running game
 * and the high-score ratchet. Timing, the input channel and terminal I/O are
 * parameters: a pass receives the elapsed time and each input event.
 */
module MainLoop {
  import opened Utils
  import opened Core
  import Storage

  // ---------------------------------------------------------------------------
  // Directions and difficulties

  /** is_reverse_direction: the four exact reversals. */
  function IsReverseDirection(current: Direction, next: Direction): (r: bool)
    ensures r <==> next == Opposite(current)
  {
    match (current, next)
    case (Up, Down) => true
    case (Down, Up) => true
    case (Left, Right) => true
    case (Right, Left) => true
    case _ => false
  }

  /** A reversal is a turn to the opposite heading; the relation is symmetric and irreflexive. */
  lemma ReverseDirectionProperties(a: Direction, b: Direction)
    ensures IsReverseDirection(a, b) <==> b == Opposite(a)
    ensures IsReverseDirection(a, b) == IsReverseDirection(b, a)
    ensures !IsReverseDirection(a, a)
  {
  }

  /**
   * The difficulties the menu offers: the three tiers the engine knows, and
   * Extreme, which main.rs lists but no engine file defines.
   */
  datatype MenuDifficulty = Listed(tier: Difficulty) | Extreme

  function DifficultyToIndex(difficulty: MenuDifficulty): (r: nat)
    ensures r <= 3
  {
    match difficulty
    case Listed(Easy) => 0
    case Listed(Medium) => 1
    case Listed(Hard) => 2
    case Extreme => 3
  }

  /** Rows 0 to 3 name a difficulty; anything else falls back to Medium. */
  function DifficultyFromIndex(index: nat): MenuDifficulty
  {
    match index
    case 0 => Listed(Easy)
    case 1 => Listed(Medium)
    case 2 => Listed(Hard)
    case 3 => Extreme
    case _ => Listed(Medium)
  }

  lemma DifficultyIndexRoundTrip(d: MenuDifficulty, index: nat)
    ensures DifficultyFromIndex(DifficultyToIndex(d)) == d
    ensures index <= 3 ==> DifficultyToIndex(DifficultyFromIndex(index)) == index
    ensures index > 3 ==> DifficultyFromIndex(index) == Listed(Medium)
  {
  }

  // ---------------------------------------------------------------------------
  // The direction queue

  /**
   * Admission of a pressed direction. It is compared with the newest queued
   * turn, or with the snake's heading when none is queued; a repeat or a
   * reversal of it is dropped. A full queue (two turns) loses its newest turn
   * to the new one.
   */
  function Admit(items: seq<Direction>, direction: Direction, snakeDirection: Direction): (r: seq<Direction>)
    ensures |items| <= 2 ==> |r| <= 2
    ensures r != items ==> |r| > 0 && r[|r| - 1] == direction
  {
    var reference := if |items| > 0 then items[|items| - 1] else snakeDirection;
    if direction == reference || IsReverseDirection(reference, direction) then items
    else (if |items| >= 2 then items[..|items| - 1] else items) + [direction]
  }

  /**
   * The queue never holds more than two turns; when full it keeps its front
   * (oldest) turn; an admitted turn becomes the back and is neither a repeat
   * nor a reversal of the turn (or heading) it was compared with.
   */
  lemma AdmitProperties(items: seq<Direction>, direction: Direction, snakeDirection: Direction)
    requires |items| <= 2
    ensures var r := Admit(items, direction, snakeDirection);
            var reference := if |items| > 0 then items[|items| - 1] else snakeDirection;
            && |r| <= 2
            && (|items| == 2 ==> r[0] == items[0])
            && (r != items ==> r[|r| - 1] == direction && direction != reference &&
                               direction != Opposite(reference))
            && (r == items <==> direction == reference || direction == Opposite(reference))
  {
    var r := Admit(items, direction, snakeDirection);
    var reference := if |items| > 0 then items[|items| - 1] else snakeDirection;
    ReverseDirectionProperties(reference, direction);
    if !(direction == reference || IsReverseDirection(reference, direction)) {
      assert |r| > 0 && r[|r| - 1] == direction;
      assert |items| == 2 ==> r[0] == items[0] && r[1] != items[1];
    }
  }

  /**
   * Replacing the newest turn can leave a reversal pair queued: heading Left,
   * Up then Left then Down queues [Up, Down]. The snake's own guard then
   * refuses the second turn, so the snake still never reverses.
   */
  lemma QueueCanHoldReversalPair()
    ensures Admit(Admit(Admit([], Up, Left), Left, Left), Down, Left) == [Up, Down]
    ensures IsReverseDirection(Up, Down)
  {
  }

  class DirectionQueue {
    var items: seq<Direction>

    ghost predicate Valid()
      reads this
    {
      |items| <= 2
    }

    constructor ()
      ensures items == [] && Valid()
    {
      items := [];
    }

    /** The input-handling branch for a direction key. */
    method Offer(direction: Direction, snakeDirection: Direction)
      requires Valid()
      modifies this
      ensures Valid()
      ensures items == Admit(old(items), direction, snakeDirection)
    {
      AdmitProperties(items, direction, snakeDirection);
      var reference := if |items| > 0 then items[|items| - 1] else snakeDirection;
      var isSameDirection := direction == reference;
      if !isSameDirection && !IsReverseDirection(reference, direction) {
        if |items| >= 2 {
          items := items[..|items| - 1];
        }
        items := items + [direction];
      }
    }

    /** pop_front: the oldest queued turn, if any. */
    method PopFront() returns (front: Option<Direction>)
      requires Valid()
      modifies this
      ensures Valid()
      ensures old(items) == [] ==> front.None? && items == []
      ensures old(items) != [] ==> front == Some(old(items)[0]) && items == old(items)[1..]
    {
      if |items| == 0 {
        return None;
      }
      front := Some(items[0]);
      items := items[1..];
    }

    function Front(): Option<Direction>
      reads this
    {
      if |items| > 0 then Some(items[0]) else None
    }
  }

  // ---------------------------------------------------------------------------
  // The tick interval

  /** The interval in milliseconds: the base scaled by both speed percentages, never below 20. */
  function TickInterval(baseMs: nat, progressionPercent: nat, powerUpPercent: nat): (r: nat)
    ensures r >= 20
  {
    var speedMultiplier := progressionPercent * powerUpPercent / 100;
    var scaled := baseMs * speedMultiplier / 100;
    if scaled >= 20 then scaled else 20
  }

  /**
   * The floor of 20 ms always holds; a base of at least 20 ms at 100% and
   * 100% is kept as it is; a longer base never gives a shorter interval.
   */
  lemma TickIntervalProperties(baseMs: nat, otherMs: nat, progressionPercent: nat, powerUpPercent: nat)
    ensures TickInterval(baseMs, progressionPercent, powerUpPercent) >= 20
    ensures baseMs >= 20 ==> TickInterval(baseMs, 100, 100) == baseMs
    ensures baseMs <= otherMs ==>
              TickInterval(baseMs, progressionPercent, powerUpPercent) <=
              TickInterval(otherMs, progressionPercent, powerUpPercent)
  {
    var m := progressionPercent * powerUpPercent / 100;
    if baseMs <= otherMs {
      MulMonotone(baseMs, otherMs, m);
    }
  }

  lemma MulMonotone(a: nat, b: nat, m: nat)
    requires a <= b
    ensures a * m / 100 <= b * m / 100
  {
    assert a * m <= b * m by {
      MulLeq(a, b, m);
    }
  }

  lemma MulLeq(a: nat, b: nat, m: nat)
    requires a <= b
    ensures a * m <= b * m
  {
  }

  /**
   * The interval for the next tick: vertical when the turn about to be taken
   * (else the current heading) is Up or Down, horizontal otherwise.
   */
  function TickRateFor(queueFront: Option<Direction>, snakeDirection: Direction,
                       horizontalMs: nat, verticalMs: nat): (r: nat)
    ensures var d := if queueFront.Some? then queueFront.value else snakeDirection;
            r == (if d == Up || d == Down then verticalMs else horizontalMs)
  {
    var directionForTickRate := if queueFront.Some? then queueFront.value else snakeDirection;
    match directionForTickRate
    case Up => verticalMs
    case Down => verticalMs
    case Left => horizontalMs
    case Right => horizontalMs
  }

  /** The interval a pass waits for at difficulty `d`, from the turn about to be taken. */
  function DueInterval(d: Difficulty, queueFront: Option<Direction>, heading: Direction,
                       progressionPercent: nat, powerUpPercent: nat): nat
  {
    var (horizontal, vertical) := TickRates(d);
    TickRateFor(queueFront, heading, TickInterval(horizontal, progressionPercent, powerUpPercent),
                TickInterval(vertical, progressionPercent, powerUpPercent))
  }

  /** A vertical interval is twice the horizontal one at every difficulty (before scaling). */
  lemma VerticalTicksTwiceAsLong(d: Difficulty, front: Option<Direction>, heading: Direction)
    ensures var (h, v) := TickRates(d);
            var chosen := TickRateFor(front, heading, h, v);
            chosen == h || chosen == 2 * h
  {
  }

  // ---------------------------------------------------------------------------
  // High scores

  /** A stored score is replaced only by a strictly higher one. */
  function RatchetHighScore(scores: Storage.HighScores, difficulty: Difficulty, highScore: nat): (r: Storage.HighScores)
    ensures r.Get(difficulty) == (if highScore > scores.Get(difficulty) then highScore else scores.Get(difficulty))
    ensures forall other :: other != difficulty ==> r.Get(other) == scores.Get(other)
  {
    if highScore > scores.Get(difficulty) then scores.Set(difficulty, highScore) else scores
  }

  /** Ratcheting never lowers any stored score, and ratcheting twice with the same score is ratcheting once. */
  lemma RatchetMonotone(scores: Storage.HighScores, difficulty: Difficulty, highScore: nat)
    ensures forall d :: RatchetHighScore(scores, difficulty, highScore).Get(d) >= scores.Get(d)
    ensures RatchetHighScore(RatchetHighScore(scores, difficulty, highScore), difficulty, highScore) ==
            RatchetHighScore(scores, difficulty, highScore)
  {
  }

  // ---------------------------------------------------------------------------
  // A running game

  /** Input events of main.rs (GameInput). */
  datatype GameInput =
    | DirectionKey(direction: Direction)
    | Pause
    | Quit
    | MenuSelect(option: nat)
    | MenuConfirm
    | ToggleMute
    | FocusLost
    | Resize(width: u16, height: u16)

  /** How a game-time input leaves the inner loop. */
  datatype LoopAction = KeepPlaying | ReturnToMenu | QuitGame

  /** The heading after update_snake_direction with the queued turn, if any. */
  function Steered(s: GameState, items: seq<Direction>): GameState
  {
    if items == [] then s
    else s.(direction := if items[0] == Opposite(s.direction) then s.direction else items[0])
  }

  /** The state of one game session of main.rs's outer loop. */
  class PlaySession {
    const game: Game
    const queue: DirectionQueue
    const difficulty: Difficulty
    var termSize: (u16, u16)
    var pauseOnFocusLoss: bool
    var highScores: Storage.HighScores
    /** The language of the session's settings; the menu alone changes it. */
    const language: nat
    /** The localized layout check made before each update pass. */
    const fits: LayoutCheck

    ghost predicate Valid()
      reads this, game, game.snake, queue
    {
      game.Valid() && queue.Valid()
    }

    /** A new session starts with an empty queue and the game muted exactly when sound is off. */
    constructor (game: Game, termSize: (u16, u16), pauseOnFocusLoss: bool, soundOn: bool,
                 highScores: Storage.HighScores, language: nat, fits: LayoutCheck)
      requires game.Valid()
      modifies game
      ensures Valid() && this.game == game && fresh(queue) && queue.items == []
      ensures game.State() == old(game.State()).(muted := !soundOn)
      ensures difficulty == game.difficulty && this.termSize == termSize
      ensures this.pauseOnFocusLoss == pauseOnFocusLoss && this.highScores == highScores
      ensures this.language == language && this.fits == fits
    {
      game.muted := !soundOn;
      this.game := game;
      queue := new DirectionQueue();
      difficulty := game.difficulty;
      this.termSize := termSize;
      this.pauseOnFocusLoss := pauseOnFocusLoss;
      this.highScores := highScores;
      this.language := language;
      this.fits := fits;
    }

    /**
     * One input event taken from the channel during a game. Once the game is
     * over only resizing, returning to the menu and quitting are heard.
     */
    method HandleInput(input: GameInput) returns (action: LoopAction)
      requires Valid()
      modifies this, game, queue
      ensures Valid()
      ensures action == (match input case MenuConfirm => ReturnToMenu case Quit => QuitGame case _ => KeepPlaying)
      ensures old(game.gameOver) ==> game.State() == old(game.State()) && queue.items == old(queue.items)
      ensures input.DirectionKey? && !old(game.gameOver) ==>
                queue.items == Admit(old(queue.items), input.direction, old(game.snake.direction))
      ensures !input.DirectionKey? ==> queue.items == old(queue.items)
      ensures input.Pause? ==> game.State() == old(game.State()).(paused := if old(game.gameOver) then old(game.paused) else !old(game.paused))
      ensures input.ToggleMute? ==>
                game.State() == old(game.State()).(muted := if old(game.gameOver) then old(game.muted) else !old(game.muted))
      ensures input.FocusLost? ==>
                game.State() == old(game.State()).(paused :=
                  if pauseOnFocusLoss && !old(game.paused) && !old(game.gameOver) then true else old(game.paused))
      ensures !(input.Pause? || input.ToggleMute? || input.FocusLost?) ==> game.State() == old(game.State())
      ensures termSize == (if input.Resize? then (input.width, input.height) else old(termSize))
      ensures highScores == old(highScores) && pauseOnFocusLoss == old(pauseOnFocusLoss)
    {
      action := KeepPlaying;
      if game.gameOver {
        match input {
          case Resize(width, height) =>
            termSize := (width, height);
          case MenuConfirm =>
            action := ReturnToMenu;
          case Quit =>
            action := QuitGame;
          case _ =>
        }
        return;
      }
      match input
      case Resize(width, height) =>
        termSize := (width, height);
      case MenuConfirm =>
        action := ReturnToMenu;
      case Quit =>
        action := QuitGame;
      case Pause =>
        game.TogglePause();
      case ToggleMute =>
        game.ToggleMute();
      case FocusLost =>
        if pauseOnFocusLoss && !game.paused {
          game.TogglePause();
        }
      case DirectionKey(direction) =>
        queue.Offer(direction, game.snake.direction);
      case MenuSelect(_) =>
    }

    /**
     * The update step of one pass of the inner loop. Nothing happens while
     * `fits` finds the terminal too small in the session's language. Otherwise the interval is
     * chosen by the turn about to be taken; a tick is due when the game runs,
     * is not paused, and `elapsedMs` has reached that interval. Then at most
     * one queued turn is taken, the game ticks, and a higher `highScore` (the
     * game's best, which `src/core/mod.rs` does not define) replaces the stored one.
     */
    method UpdatePass(elapsedMs: nat, progressionPercent: nat, powerUpPercent: nat, highScore: nat,
                      foodDraws: seq<Position>, refill: PowerUpRoll, occasional: bool, extra: PowerUpRoll)
      returns (ticked: bool)
      requires Valid()
      requires DrawsInside(foodDraws, game.width, game.height)
      requires DrawsInside(refill.draws, game.width, game.height) && DrawsInside(extra.draws, game.width, game.height)
      modifies game, game.snake, queue, this
      ensures Valid()
      ensures ticked <==> && !old(game.gameOver) && !old(game.paused)
                          && fits(termSize.0, termSize.1, game.width, game.height, language)
                          && elapsedMs >= DueInterval(difficulty, old(queue.Front()), old(game.snake.direction),
                                                      progressionPercent, powerUpPercent)
      ensures !ticked ==> game.State() == old(game.State()) && queue.items == old(queue.items) &&
                          highScores == old(highScores)
      ensures ticked ==> queue.items == (if old(queue.items) == [] then [] else old(queue.items)[1..])
      ensures ticked ==> game.State() == TickResult(Steered(old(game.State()), old(queue.items)),
                                                    foodDraws, refill, occasional, extra, game.width, game.height)
      ensures ticked ==> highScores == RatchetHighScore(old(highScores), difficulty, highScore)
      ensures termSize == old(termSize) && pauseOnFocusLoss == old(pauseOnFocusLoss)
    {
      ticked := false;
      if game.gameOver {
        return;
      }
      if !fits(termSize.0, termSize.1, game.width, game.height, language) {
        return;
      }
      var (horizontal, vertical) := TickRates(difficulty);
      var tickRate := TickRateFor(queue.Front(), game.snake.direction,
                                  TickInterval(horizontal, progressionPercent, powerUpPercent),
                                  TickInterval(vertical, progressionPercent, powerUpPercent));
      if !game.paused && elapsedMs >= tickRate {
        ghost var s := game.State();
        var next := queue.PopFront();
        if next.Some? {
          game.UpdateSnakeDirection(next.value);
        }
        assert game.State() == Steered(s, old(queue.items));
        game.Tick(foodDraws, refill, occasional, extra);
        if highScore > highScores.Get(difficulty) {
          highScores := highScores.Set(difficulty, highScore);
        }
        ticked := true;
      }
    }
  }

  /**
   * A due tick takes exactly one queued turn, and the snake never reverses
   * in a single tick: its new heading is the queued turn unless that turn
   * is the reverse of the old heading, which is then kept.
   */
  lemma SteeredNeverReverses(s: GameState, items: seq<Direction>)
    ensures Steered(s, items).direction != Opposite(s.direction)
    ensures items != [] && items[0] != Opposite(s.direction) ==> Steered(s, items).direction == items[0]
    ensures Steered(s, items).(direction := s.direction) == s
  {
  }

  // ---------------------------------------------------------------------------
  // The menu

  datatype MenuScreen =
    | MainScreen | DifficultyScreen | HighScoresScreen | SettingsScreen | LanguageScreen | ResetScoresConfirm

  /** The persisted settings; a language is its index in the list of supported languages. */
  datatype Settings = Settings(language: nat, pauseOnFocusLoss: bool, soundOn: bool,
                               defaultDifficulty: MenuDifficulty)

  /** What one menu input leads to: stay in the menu, start a game, or leave the program. */
  datatype MenuOutcome = Continue | Start(difficulty: MenuDifficulty) | Exit

  /** A snapshot of show_menu's locals and of the state it borrows. */
  datatype MenuState = MenuState(
    screen: MenuScreen,
    mainSelected: nat,
    difficultySelected: nat,
    highScoresSelected: nat,
    settingsSelected: nat,
    languageSelected: nat,
    resetSelected: nat,
    termSize: (u16, u16),
    settings: Settings,
    selectedDifficulty: MenuDifficulty,
    highScores: Storage.HighScores)

  /** The last selectable row of a screen; the language list has a Back row after its languages. */
  function MaxIndex(screen: MenuScreen, languageCount: nat): nat
  {
    match screen
    case LanguageScreen => languageCount
    case ResetScoresConfirm => 1
    case _ => 4
  }

  /** Every selection is on a row of its screen, and the chosen language exists. */
  ghost predicate MenuValid(m: MenuState, languageCount: nat)
  {
    && m.mainSelected <= MaxIndex(MainScreen, languageCount)
    && m.difficultySelected <= MaxIndex(DifficultyScreen, languageCount)
    && m.highScoresSelected == 4
    && m.settingsSelected <= MaxIndex(SettingsScreen, languageCount)
    && m.languageSelected <= MaxIndex(LanguageScreen, languageCount)
    && m.resetSelected <= MaxIndex(ResetScoresConfirm, languageCount)
    && m.settings.language < languageCount
  }

  /** The menu as show_menu begins: main screen, Play highlighted, reset prompt on No. */
  function MenuStart(termSize: (u16, u16), settings: Settings, selectedDifficulty: MenuDifficulty,
                     highScores: Storage.HighScores): (m: MenuState)
    ensures m.screen == MainScreen && m.mainSelected == 0 && m.resetSelected == 1
    ensures m.difficultySelected == DifficultyToIndex(selectedDifficulty)
    ensures m.languageSelected == settings.language
  {
    MenuState(MainScreen, 0, DifficultyToIndex(selectedDifficulty), 4, 0, settings.language, 1,
              termSize, settings, selectedDifficulty, highScores)
  }

  /** The highlighted row of the current screen. */
  function Selection(m: MenuState): nat
  {
    match m.screen
    case MainScreen => m.mainSelected
    case DifficultyScreen => m.difficultySelected
    case HighScoresScreen => m.highScoresSelected
    case SettingsScreen => m.settingsSelected
    case LanguageScreen => m.languageSelected
    case ResetScoresConfirm => m.resetSelected
  }

  /** Moves the highlight of the current screen to `row`; the high-score list stays on Back. */
  function WithSelection(m: MenuState, row: nat): MenuState
  {
    match m.screen
    case MainScreen => m.(mainSelected := row)
    case DifficultyScreen => m.(difficultySelected := row)
    case HighScoresScreen => m.(highScoresSelected := 4)
    case SettingsScreen => m.(settingsSelected := row)
    case LanguageScreen => m.(languageSelected := row)
    case ResetScoresConfirm => m.(resetSelected := row)
  }

  function Min(a: nat, b: nat): nat
  {
    if a <= b then a else b
  }

  /**
   * The verdict of the five-argument `compute_layout(term_width, term_height,
   * map_width, map_height, language)` that main.rs calls: whether the board and
   * its control hint in that language fit the terminal. src/layout/mod.rs
   * defines only a four-argument, English-only version, so the verdict is a
   * parameter of the menu and of the play session.
   */
  type LayoutCheck = (u16, u16, u16, u16, nat) -> bool

  /** Whether the board fits the terminal in `language` (the layout check at the top of each menu pass). */
  predicate BoardFits(fits: LayoutCheck, termSize: (u16, u16), language: nat)
  {
    fits(termSize.0, termSize.1, WIDTH, HEIGHT, language)
  }

  /** Confirming the highlighted row. */
  function Confirm(m: MenuState, languageCount: nat, fits: LayoutCheck): (r: (MenuState, MenuOutcome))
    ensures r.0.termSize == m.termSize
    ensures r.1.Start? ==> m.screen == MainScreen && BoardFits(fits, m.termSize, m.settings.language) && r.1.difficulty == m.selectedDifficulty
    ensures r.1 == Exit <==> m.screen == MainScreen && m.mainSelected == 4
    ensures r.0.highScores != m.highScores ==>
              m.screen == ResetScoresConfirm && r.0.highScores == Storage.DefaultHighScores()
  {
    match m.screen
    case MainScreen =>
      if m.mainSelected == 0 then
        (m, if BoardFits(fits, m.termSize, m.settings.language) then Start(m.selectedDifficulty) else Continue)
      else if m.mainSelected == 1 then
        (m.(difficultySelected := DifficultyToIndex(m.selectedDifficulty), screen := DifficultyScreen), Continue)
      else if m.mainSelected == 2 then
        (m.(highScoresSelected := 4, screen := HighScoresScreen), Continue)
      else if m.mainSelected == 3 then
        (m.(screen := SettingsScreen), Continue)
      else if m.mainSelected == 4 then
        (m, Exit)
      else
        (m, Continue)
    case DifficultyScreen =>
      var chosen :=
        if m.difficultySelected <= 3 then
          var d := DifficultyFromIndex(m.difficultySelected);
          m.(selectedDifficulty := d, settings := m.settings.(defaultDifficulty := d))
        else m;
      (chosen.(screen := MainScreen), Continue)
    case SettingsScreen =>
      if m.settingsSelected == 0 then
        (m.(languageSelected := m.settings.language, screen := LanguageScreen), Continue)
      else if m.settingsSelected == 1 then
        (m.(settings := m.settings.(pauseOnFocusLoss := !m.settings.pauseOnFocusLoss)), Continue)
      else if m.settingsSelected == 2 then
        (m.(settings := m.settings.(soundOn := !m.settings.soundOn)), Continue)
      else if m.settingsSelected == 3 then
        (m.(resetSelected := 1, screen := ResetScoresConfirm), Continue)
      else if m.settingsSelected == 4 then
        (m.(screen := MainScreen), Continue)
      else
        (m, Continue)
    case LanguageScreen =>
      var chosen :=
        if m.languageSelected < languageCount then m.(settings := m.settings.(language := m.languageSelected))
        else m;
      (chosen.(screen := SettingsScreen), Continue)
    case ResetScoresConfirm =>
      var chosen := if m.resetSelected == 0 then m.(highScores := Storage.DefaultHighScores()) else m;
      (chosen.(screen := SettingsScreen), Continue)
    case HighScoresScreen =>
      (m.(screen := MainScreen), Continue)
  }

  /** One input received by show_menu. */
  function MenuStep(m: MenuState, input: GameInput, languageCount: nat, fits: LayoutCheck): (r: (MenuState, MenuOutcome))
    ensures r.1 != Continue ==> input == MenuConfirm || input == Quit
    ensures r.0.screen != m.screen ==> input == MenuConfirm
    ensures r.0.termSize != m.termSize ==> input.Resize?
  {
    var maxIndex := MaxIndex(m.screen, languageCount);
    match input
    case Resize(width, height) => (m.(termSize := (width, height)), Continue)
    case MenuSelect(option) => (WithSelection(m, Min(option, maxIndex)), Continue)
    case DirectionKey(Up) =>
      (if m.screen == HighScoresScreen then m
       else WithSelection(m, if Selection(m) == 0 then 0 else Selection(m) - 1), Continue)
    case DirectionKey(Down) =>
      (if m.screen == HighScoresScreen then m else WithSelection(m, Min(Selection(m) + 1, maxIndex)), Continue)
    case MenuConfirm => Confirm(m, languageCount, fits)
    case Quit => (m, Exit)
    case _ => (m, Continue)
  }

  /** The inputs show_menu consumes from `inputs` until it returns, or all of them if it does not. */
  function MenuRun(m: MenuState, inputs: seq<GameInput>, languageCount: nat, fits: LayoutCheck): (r: (MenuState, MenuOutcome))
    ensures r.1 != Continue ==> MenuConfirm in inputs || Quit in inputs
    decreases |inputs|
  {
    if inputs == [] then (m, Continue)
    else
      var (next, outcome) := MenuStep(m, inputs[0], languageCount, fits);
      if outcome == Continue then MenuRun(next, inputs[1..], languageCount, fits) else (next, outcome)
  }

  /** Every input keeps each highlight on a row of its screen. */
  lemma MenuStepKeepsRanges(m: MenuState, input: GameInput, languageCount: nat, fits: LayoutCheck)
    requires MenuValid(m, languageCount)
    ensures MenuValid(MenuStep(m, input, languageCount, fits).0, languageCount)
  {
    match input
    case MenuConfirm => ConfirmKeepsRanges(m, languageCount, fits);
    case MenuSelect(option) =>
      assert Min(option, MaxIndex(m.screen, languageCount)) <= MaxIndex(m.screen, languageCount);
    case _ =>
  }

  lemma ConfirmKeepsRanges(m: MenuState, languageCount: nat, fits: LayoutCheck)
    requires MenuValid(m, languageCount)
    ensures MenuValid(Confirm(m, languageCount, fits).0, languageCount)
  {
    match m.screen
    case MainScreen =>
    case DifficultyScreen =>
    case SettingsScreen =>
    case LanguageScreen =>
    case ResetScoresConfirm =>
    case HighScoresScreen =>
  }

  lemma {:induction false} MenuRunKeepsRanges(m: MenuState, inputs: seq<GameInput>, languageCount: nat, fits: LayoutCheck)
    requires MenuValid(m, languageCount)
    ensures MenuValid(MenuRun(m, inputs, languageCount, fits).0, languageCount)
    decreases |inputs|
  {
    if inputs != [] {
      MenuStepKeepsRanges(m, inputs[0], languageCount, fits);
      var (next, outcome) := MenuStep(m, inputs[0], languageCount, fits);
      if outcome == Continue {
        MenuRunKeepsRanges(next, inputs[1..], languageCount, fits);
      }
    }
  }

  /**
   * A game starts exactly when Play is confirmed on the main screen while the
   * board fits the terminal in the current language, and it starts at the selected difficulty.
   */
  lemma StartOnlyFromPlay(m: MenuState, input: GameInput, languageCount: nat, fits: LayoutCheck)
    ensures MenuStep(m, input, languageCount, fits).1.Start? <==>
              input == MenuConfirm && m.screen == MainScreen && m.mainSelected == 0 && BoardFits(fits, m.termSize, m.settings.language)
    ensures MenuStep(m, input, languageCount, fits).1.Start? ==>
              MenuStep(m, input, languageCount, fits).1.difficulty == m.selectedDifficulty
  {
  }

  /** The menu is left for good only by Quit or by confirming the Quit row of the main screen. */
  lemma ExitOnlyOnQuit(m: MenuState, input: GameInput, languageCount: nat, fits: LayoutCheck)
    ensures MenuStep(m, input, languageCount, fits).1 == Exit <==>
              input == Quit || (input == MenuConfirm && m.screen == MainScreen && m.mainSelected == 4)
  {
  }

  /**
   * Stored scores change only by confirming Yes on the reset prompt, and
   * then become all zero; opening the prompt highlights No, so confirming
   * straight away keeps them.
   */
  lemma ScoresResetOnlyOnYes(m: MenuState, input: GameInput, languageCount: nat, fits: LayoutCheck)
    ensures var next := MenuStep(m, input, languageCount, fits).0;
            next.highScores != m.highScores ==>
              input == MenuConfirm && m.screen == ResetScoresConfirm && m.resetSelected == 0 &&
              next.highScores == Storage.DefaultHighScores()
    ensures m.screen == SettingsScreen && m.settingsSelected == 3 ==>
              var prompt := MenuStep(m, MenuConfirm, languageCount, fits).0;
              prompt.screen == ResetScoresConfirm &&
              MenuStep(prompt, MenuConfirm, languageCount, fits).0.highScores == m.highScores
  {
  }

  /**
   * Up and Down are inverse away from the ends of a list: Up stops at the
   * first row, Down at the last.
   */
  lemma UpDownRoundTrip(m: MenuState, languageCount: nat, fits: LayoutCheck)
    requires m.screen != HighScoresScreen
    requires Selection(m) <= MaxIndex(m.screen, languageCount)
    ensures var up := MenuStep(m, DirectionKey(Up), languageCount, fits).0;
            Selection(m) > 0 ==> Selection(MenuStep(up, DirectionKey(Down), languageCount, fits).0) == Selection(m)
    ensures var down := MenuStep(m, DirectionKey(Down), languageCount, fits).0;
            Selection(m) < MaxIndex(m.screen, languageCount) ==>
              Selection(MenuStep(down, DirectionKey(Up), languageCount, fits).0) == Selection(m)
    ensures Selection(m) == 0 ==> MenuStep(m, DirectionKey(Up), languageCount, fits).0 == m
    ensures Selection(m) == MaxIndex(m.screen, languageCount) ==> MenuStep(m, DirectionKey(Down), languageCount, fits).0 == m
  {
  }

  /**
   * Choosing a listed difficulty makes it both the selection and the saved
   * default; Back keeps both. Opening the difficulty list and confirming at
   * once keeps the current choice.
   */
  lemma DifficultyChoice(m: MenuState, languageCount: nat, fits: LayoutCheck)
    ensures m.screen == DifficultyScreen ==>
              var next := MenuStep(m, MenuConfirm, languageCount, fits).0;
              next.screen == MainScreen &&
              (m.difficultySelected <= 3 ==>
                 next.selectedDifficulty == DifficultyFromIndex(m.difficultySelected) &&
                 next.settings.defaultDifficulty == next.selectedDifficulty) &&
              (m.difficultySelected > 3 ==> next == m.(screen := MainScreen))
    ensures m.screen == MainScreen && m.mainSelected == 1 ==>
              var prompt := MenuStep(m, MenuConfirm, languageCount, fits).0;
              MenuStep(prompt, MenuConfirm, languageCount, fits).0.selectedDifficulty == m.selectedDifficulty
  {
    DifficultyIndexRoundTrip(m.selectedDifficulty, 0);
  }

  /** Opening the language list highlights the current language, so confirming at once keeps it. */
  lemma LanguageChoiceRoundTrip(m: MenuState, languageCount: nat, fits: LayoutCheck)
    requires MenuValid(m, languageCount)
    requires m.screen == SettingsScreen && m.settingsSelected == 0
    ensures var prompt := MenuStep(m, MenuConfirm, languageCount, fits).0;
            var back := MenuStep(prompt, MenuConfirm, languageCount, fits).0;
            prompt.screen == LanguageScreen && back.screen == SettingsScreen && back.settings == m.settings
  {
  }

  /** show_menu's state; its methods are one received input and the receiving loop. */
  class Menu {
    var screen: MenuScreen
    var mainSelected: nat
    var difficultySelected: nat
    var highScoresSelected: nat
    var settingsSelected: nat
    var languageSelected: nat
    var resetSelected: nat
    var termSize: (u16, u16)
    var settings: Settings
    var selectedDifficulty: MenuDifficulty
    var highScores: Storage.HighScores
    /** The number of supported languages (Language::ALL.len()). */
    const languageCount: nat
    /** The localized layout check of each menu pass. */
    const fits: LayoutCheck

    ghost function State(): MenuState
      reads this
    {
      MenuState(screen, mainSelected, difficultySelected, highScoresSelected, settingsSelected,
                languageSelected, resetSelected, termSize, settings, selectedDifficulty, highScores)
    }

    ghost predicate Valid()
      reads this
    {
      MenuValid(State(), languageCount)
    }

    constructor (termSize: (u16, u16), settings: Settings, selectedDifficulty: MenuDifficulty,
                 highScores: Storage.HighScores, languageCount: nat, fits: LayoutCheck)
      requires settings.language < languageCount
      ensures State() == MenuStart(termSize, settings, selectedDifficulty, highScores)
      ensures this.languageCount == languageCount && this.fits == fits && Valid()
    {
      screen := MainScreen;
      mainSelected := 0;
      difficultySelected := DifficultyToIndex(selectedDifficulty);
      highScoresSelected := 4;
      settingsSelected := 0;
      languageSelected := settings.language;
      resetSelected := 1;
      this.termSize := termSize;
      this.settings := settings;
      this.selectedDifficulty := selectedDifficulty;
      this.highScores := highScores;
      this.languageCount := languageCount;
      this.fits := fits;
    }

    /** The handling of one received input. */
    method HandleInput(input: GameInput) returns (outcome: MenuOutcome)
      requires Valid()
      modifies this
      ensures (State(), outcome) == MenuStep(old(State()), input, languageCount, fits)
      ensures Valid()
    {
      MenuStepKeepsRanges(State(), input, languageCount, fits);
      var layoutOk := BoardFits(fits, termSize, settings.language);
      var maxIndex := MaxIndex(screen, languageCount);
      outcome := Continue;
      match input {
        case Resize(width, height) =>
          termSize := (width, height);
        case MenuSelect(option) =>
          SelectRow(Min(option, maxIndex));
        case DirectionKey(Up) =>
          if screen != HighScoresScreen {
            var current := Highlighted();
            SelectRow(if current == 0 then 0 else current - 1);
          }
        case DirectionKey(Down) =>
          if screen != HighScoresScreen {
            var current := Highlighted();
            SelectRow(Min(current + 1, maxIndex));
          }
        case MenuConfirm =>
          outcome := ConfirmSelected(layoutOk);
        case Quit =>
          outcome := Exit;
        case _ =>
      }
    }

    /** The highlighted row of the current screen. */
    function Highlighted(): (row: nat)
      reads this
      ensures row == Selection(State())
    {
      match screen
      case MainScreen => mainSelected
      case DifficultyScreen => difficultySelected
      case HighScoresScreen => highScoresSelected
      case SettingsScreen => settingsSelected
      case LanguageScreen => languageSelected
      case ResetScoresConfirm => resetSelected
    }

    /** Moves the current screen's highlight to `row`; the high-score list stays on its Back row. */
    method SelectRow(row: nat)
      modifies this
      ensures State() == WithSelection(old(State()), row)
    {
      match screen {
        case MainScreen => mainSelected := row;
        case DifficultyScreen => difficultySelected := row;
        case HighScoresScreen => highScoresSelected := 4;
        case SettingsScreen => settingsSelected := row;
        case LanguageScreen => languageSelected := row;
        case ResetScoresConfirm => resetSelected := row;
      }
    }

    /** The MenuConfirm branch of HandleInput. */
    method ConfirmSelected(layoutOk: bool) returns (outcome: MenuOutcome)
      requires layoutOk == BoardFits(fits, termSize, settings.language)
      modifies this
      ensures (State(), outcome) == Confirm(old(State()), languageCount, fits)
    {
      outcome := Continue;
      match screen {
        case MainScreen =>
          if mainSelected == 0 {
            if layoutOk {
              outcome := Start(selectedDifficulty);
            }
          } else if mainSelected == 1 {
            difficultySelected := DifficultyToIndex(selectedDifficulty);
            screen := DifficultyScreen;
          } else if mainSelected == 2 {
            highScoresSelected := 4;
            screen := HighScoresScreen;
          } else if mainSelected == 3 {
            screen := SettingsScreen;
          } else if mainSelected == 4 {
            outcome := Exit;
          }
        case DifficultyScreen =>
          if difficultySelected <= 3 {
            selectedDifficulty := DifficultyFromIndex(difficultySelected);
            settings := settings.(defaultDifficulty := selectedDifficulty);
          }
          screen := MainScreen;
        case SettingsScreen =>
          if settingsSelected == 0 {
            languageSelected := settings.language;
            screen := LanguageScreen;
          } else if settingsSelected == 1 {
            settings := settings.(pauseOnFocusLoss := !settings.pauseOnFocusLoss);
          } else if settingsSelected == 2 {
            settings := settings.(soundOn := !settings.soundOn);
          } else if settingsSelected == 3 {
            resetSelected := 1;
            screen := ResetScoresConfirm;
          } else if settingsSelected == 4 {
            screen := MainScreen;
          }
        case LanguageScreen =>
          if languageSelected < languageCount {
            settings := settings.(language := languageSelected);
          }
          screen := SettingsScreen;
        case ResetScoresConfirm =>
          if resetSelected == 0 {
            highScores := Storage.DefaultHighScores();
          }
          screen := SettingsScreen;
        case HighScoresScreen =>
          screen := MainScreen;
      }
    }

    /**
     * show_menu's receiving loop over the inputs that arrive: it handles them
     * in order and returns at the first one that starts a game or exits.
     * `Continue` means the inputs ran out with the menu still open.
     */
    method Run(inputs: seq<GameInput>) returns (outcome: MenuOutcome)
      requires Valid()
      modifies this
      ensures (State(), outcome) == MenuRun(old(State()), inputs, languageCount, fits)
      ensures Valid()
    {
      var i := 0;
      outcome := Continue;
      while i < |inputs|
        invariant 0 <= i <= |inputs|
        invariant Valid()
        invariant MenuRun(old(State()), inputs, languageCount, fits) == MenuRun(State(), inputs[i..], languageCount, fits)
        invariant outcome == Continue
      {
        assert inputs[i..][0] == inputs[i] && inputs[i..][1..] == inputs[i + 1..];
        outcome := HandleInput(inputs[i]);
        if outcome != Continue {
          return;
        }
        i := i + 1;
      }
    }
  }
}
