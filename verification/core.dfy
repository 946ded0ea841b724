/**
 * The game engine of core/mod.rs: the snake's body and heading, and the Game
 * state machine with its tick, pause, power-up and spawn transitions.
 *
 * Random draws are oracle inputs. A rejection-sampling loop receives the
 * stream of cells the generator would produce (each already inside the
 * border, as `gen_range(1..width - 1)` guarantees) and walks it until a cell
 * passes the placement check; the 30% and 2% spawn rolls are booleans.
 */
module Core {
  import opened Utils

  /** One power-up spawn attempt: the 30% roll, the cell stream and the kind drawn. */
  datatype PowerUpRoll = PowerUpRoll(spawn: bool, draws: seq<Position>, kind: PowerUpType)

  /** Every drawn cell lies inside the border, as `gen_range(1..width - 1)` and `gen_range(1..height - 1)` draw them. */
  predicate DrawsInside(draws: seq<Position>, width: int, height: int)
  {
    forall i :: 0 <= i < |draws| ==> InInterior(draws[i], width, height)
  }

  /** The observable state of a game, used to say what each transition changes. */
  datatype GameState = GameState(
    body: seq<Position>,
    direction: Direction,
    food: Position,
    score: nat,
    gameOver: bool,
    paused: bool,
    powerUp: Option<PowerUp>,
    timer: Option<nat>,
    dirty: set<Position>,
    muted: bool)

  // ---------------------------------------------------------------------------
  // Movement

  /** The head cell after one step in `dir`, wrapping at the one-cell border. */
  function NextHead(head: Position, dir: Direction, width: u16, height: u16): (r: Position)
    requires width >= 2 && height >= 2
    ensures InInterior(head, width, height) ==> InInterior(r, width, height)
    ensures InInterior(head, width, height) && (dir == Up || dir == Down) ==> r.x == head.x
    ensures InInterior(head, width, height) && (dir == Left || dir == Right) ==> r.y == head.y
  {
    var stepped :=
      match dir
      case Up => Position(head.x, WrappingDec(head.y))
      case Down => Position(head.x, WrappingInc(head.y))
      case Left => Position(WrappingDec(head.x), head.y)
      case Right => Position(WrappingInc(head.x), head.y);
    var x := if stepped.x == 0 then width - 2 else if stepped.x == width - 1 then 1 else stepped.x;
    var y := if stepped.y == 0 then height - 2 else if stepped.y == height - 1 then 1 else stepped.y;
    Position(x, y)
  }

  function DeltaX(dir: Direction): int
  {
    match dir
    case Left => -1
    case Right => 1
    case _ => 0
  }

  function DeltaY(dir: Direction): int
  {
    match dir
    case Up => -1
    case Down => 1
    case _ => 0
  }

  /**
   * Reference definition of the playfield as a torus: the interior columns
   * 1..size-2 form a cycle, and a step is addition modulo its length.
   */
  function TorusCoord(c: int, delta: int, size: int): int
    requires size >= 3
  {
    (c - 1 + delta + (size - 2)) % (size - 2) + 1
  }

  lemma {:induction false} TorusCoordAgrees(c: u16, delta: int, size: u16, stepped: u16)
    requires size >= 3 && 1 <= c <= size - 2 && -1 <= delta <= 1
    requires stepped == c + delta
    ensures TorusCoord(c, delta, size) ==
            (if stepped == 0 then size - 2 else if stepped == size - 1 then 1 else stepped)
    ensures 1 <= TorusCoord(c, delta, size) <= size - 2
  {
    var m := size - 2;
    var v := c - 1 + delta;
    if v == -1 {
      ModBelow(m - 1, m);
    } else if v == m {
      ModOfDouble(m);
    } else {
      ModShifted(v, m);
    }
  }

  lemma ModBelow(v: int, m: int)
    requires 0 <= v < m
    ensures v % m == v
  {
  }

  lemma ModShifted(v: int, m: int)
    requires 0 <= v < m
    ensures (v + m) % m == v
  {
  }

  lemma ModOfDouble(m: int)
    requires m > 0
    ensures (m + m) % m == 0
  {
  }

  /**
   * From an interior cell every step lands on an interior cell, and it is the
   * torus step: leaving at column 0 re-enters at width-2, leaving at
   * width-1 re-enters at 1, and likewise for rows.
   */
  lemma {:induction false} NextHeadIsTorusStep(head: Position, dir: Direction, width: u16, height: u16)
    requires width >= 3 && height >= 3 && InInterior(head, width, height)
    ensures NextHead(head, dir, width, height) ==
            Position(TorusCoord(head.x, DeltaX(dir), width), TorusCoord(head.y, DeltaY(dir), height))
    ensures InInterior(NextHead(head, dir, width, height), width, height)
  {
    var n := NextHead(head, dir, width, height);
    var sx: u16 := head.x + DeltaX(dir);
    var sy: u16 := head.y + DeltaY(dir);
    TorusCoordAgrees(head.x, DeltaX(dir), width, sx);
    TorusCoordAgrees(head.y, DeltaY(dir), height, sy);
  }

  /** The border crossings spelled out for the four edges. */
  lemma NextHeadWrapsAtEdges(head: Position, width: u16, height: u16)
    requires width >= 3 && height >= 3 && InInterior(head, width, height)
    ensures head.x == 1 ==> NextHead(head, Left, width, height) == Position(width - 2, head.y)
    ensures head.x == width - 2 ==> NextHead(head, Right, width, height) == Position(1, head.y)
    ensures head.y == 1 ==> NextHead(head, Up, width, height) == Position(head.x, height - 2)
    ensures head.y == height - 2 ==> NextHead(head, Down, width, height) == Position(head.x, 1)
  {
    NextHeadIsTorusStep(head, Left, width, height);
    NextHeadIsTorusStep(head, Right, width, height);
    NextHeadIsTorusStep(head, Up, width, height);
    NextHeadIsTorusStep(head, Down, width, height);
  }

  // ---------------------------------------------------------------------------
  // Pure descriptions of the game's rules

  /** The (horizontal, vertical) tick intervals in milliseconds for a difficulty. */
  function TickRates(d: Difficulty): (r: (nat, nat))
    ensures r.1 == 2 * r.0
    ensures 60 <= r.0 <= 150
  {
    match d
    case Easy => (150, 300)
    case Medium => (100, 200)
    case Hard => (60, 120)
  }

  function Rank(d: Difficulty): nat
  {
    match d
    case Easy => 0
    case Medium => 1
    case Hard => 2
  }

  /** A harder tier ticks strictly faster in both directions. */
  lemma HarderTicksFaster(a: Difficulty, b: Difficulty)
    requires Rank(a) < Rank(b)
    ensures TickRates(b).0 < TickRates(a).0 && TickRates(b).1 < TickRates(a).1
  {
  }

  /** A speed-effect timer is absent or counts between 1 and 100 ticks. */
  predicate TimerInRange(t: Option<nat>)
  {
    t.None? || 1 <= t.value <= 100
  }

  /** One countdown step of the speed-effect timer; zero removes it. */
  function CountDown(t: Option<nat>): (r: Option<nat>)
    requires t.Some? ==> t.value >= 1
    ensures TimerInRange(t) ==> TimerInRange(r)
    ensures t.Some? && t.value > 1 ==> r == Some(t.value - 1)
    ensures t.Some? && t.value == 1 ==> r.None?
    ensures t.None? ==> r.None?
  {
    match t
    case None => None
    case Some(n) => if n - 1 == 0 then None else Some(n - 1)
  }

  function CountDownTimes(t: Option<nat>, k: nat): Option<nat>
    requires TimerInRange(t)
    decreases k
  {
    if k == 0 then t else CountDownTimes(CountDown(t), k - 1)
  }

  /** A timer set to n runs for exactly n ticks: present for fewer, gone at n. */
  lemma {:induction false} TimerExpiresAfter(n: nat, k: nat)
    requires 1 <= n <= 100
    ensures k < n ==> CountDownTimes(Some(n), k) == Some(n - k)
    ensures k >= n ==> CountDownTimes(Some(n), k).None?
    decreases k
  {
    if k == 0 {
    } else if n == 1 {
      NoneStaysNone(k - 1);
    } else {
      TimerExpiresAfter(n - 1, k - 1);
    }
  }

  lemma {:induction false} NoneStaysNone(k: nat)
    ensures CountDownTimes(None, k).None?
    decreases k
  {
    if k > 0 {
      NoneStaysNone(k - 1);
    }
  }

  /** The power-up kind picked up by a head at `head`, if any. */
  function Collected(pu: Option<PowerUp>, head: Position): (r: Option<PowerUpType>)
    ensures r.Some? <==> pu.Some? && pu.value.position == head && pu.value.active
    ensures r.Some? ==> r.value == pu.value.kind
  {
    if pu.Some? && pu.value.position == head && pu.value.active then Some(pu.value.kind) else None
  }

  /** The body after a power-up effect; only Grow and Shrink touch it. */
  function EffectBody(body: seq<Position>, kind: PowerUpType): seq<Position>
  {
    match kind
    case Grow =>
      if |body| == 0 then body else body + [body[|body| - 1], body[|body| - 1]]
    case Shrink =>
      if |body| > 3 then
        var once := body[..|body| - 1];
        if |once| > 3 then once[..|once| - 1] else once
      else body
    case _ => body
  }

  function EffectScore(score: nat, kind: PowerUpType): nat
  {
    if kind == ExtraPoints then score + 50 else score
  }

  function EffectTimer(timer: Option<nat>, kind: PowerUpType): Option<nat>
  {
    if kind == SpeedBoost || kind == SlowDown then Some(100) else timer
  }

  /**
   * Grow appends two copies of the last segment; Shrink drops up to two tail
   * segments but never below 3; every other kind leaves the body alone.
   */
  lemma EffectBodyShape(body: seq<Position>, kind: PowerUpType)
    requires |body| >= 3
    ensures kind == Grow ==>
              |EffectBody(body, kind)| == |body| + 2 && EffectBody(body, kind)[..|body|] == body &&
              EffectBody(body, kind)[|body|] == body[|body| - 1] == EffectBody(body, kind)[|body| + 1]
    ensures kind == Shrink ==>
              |EffectBody(body, kind)| == (if |body| - 2 >= 3 then |body| - 2 else 3) &&
              EffectBody(body, kind) == body[..|EffectBody(body, kind)|]
    ensures kind != Grow && kind != Shrink ==> EffectBody(body, kind) == body
    ensures |EffectBody(body, kind)| >= 3
  {
  }

  /** The first draw that lands on neither the body nor a cell of `avoid`. */
  function FirstFree(draws: seq<Position>, body: seq<Position>, avoid: set<Position>): (r: Option<Position>)
    ensures r.Some? ==> r.value in draws && r.value !in body && r.value !in avoid
    ensures r.None? <==> forall i :: 0 <= i < |draws| ==> draws[i] in body || draws[i] in avoid
  {
    if |draws| == 0 then None
    else if draws[0] !in body && draws[0] !in avoid then Some(draws[0])
    else
      var rest := FirstFree(draws[1..], body, avoid);
      if rest.Some? then
        assert forall j :: 1 <= j < |draws| ==> draws[j] == draws[1..][j - 1];
        rest
      else
        assert forall i :: 1 <= i < |draws| ==> draws[i] == draws[1..][i - 1];
        rest
  }

  /** What a spawn attempt places, once no power-up is on the board. */
  function SpawnResult(roll: PowerUpRoll, body: seq<Position>, food: Position): (r: Option<PowerUp>)
    ensures r.Some? ==> r.value.active && r.value.kind == roll.kind &&
                        r.value.position in roll.draws &&
                        r.value.position !in body && r.value.position != food
    ensures r.None? <==> !roll.spawn || FirstFree(roll.draws, body, {food}).None?
  {
    if !roll.spawn then None
    else match FirstFree(roll.draws, body, {food})
      case None => None
      case Some(p) => Some(PowerUp(p, roll.kind, true))
  }

  /** Cells the body occupied before and no longer occupies: the cells the renderer must blank. */
  function VacatedCells(before: seq<Position>, after: seq<Position>): (r: set<Position>)
    ensures forall p :: p in r <==> p in before && p !in after
  {
    set p | p in before && p !in after
  }

  /**
   * The old-tail bookkeeping as core/mod.rs writes it: the tail is marked
   * only when not growing and the body got shorter than its pre-tick copy.
   */
  function TailMarkAsWritten(before: seq<Position>, after: seq<Position>, grow: bool): (r: set<Position>)
    ensures r != {} <==> !grow && |before| > |after|
    ensures r != {} ==> r == {before[|before| - 1]}
  {
    if !grow && |before| > |after| && |before| > 0 then {before[|before| - 1]} else {}
  }

  // ---------------------------------------------------------------------------
  // The snake

  class Snake {
    var body: seq<Position>
    var direction: Direction

    constructor ()
      ensures body == [Position(10, 10), Position(11, 10), Position(12, 10)]
      ensures direction == Left
    {
      body := [Position(10, 10), Position(11, 10), Position(12, 10)];
      direction := Left;
    }

    /** Inserts the next head at index 0 and, unless growing, drops the tail. */
    method MoveForward(grow: bool, width: u16, height: u16)
      requires |body| > 0 && width >= 2 && height >= 2
      modifies this
      ensures body == [NextHead(old(body[0]), old(direction), width, height)] +
                     (if grow then old(body) else old(body)[..|old(body)| - 1])
      ensures direction == old(direction)
    {
      var newHead := NextHead(body[0], direction, width, height);
      body := [newHead] + body;
      if !grow {
        body := body[..|body| - 1];
      }
    }

    /** Takes the new heading unless it is the exact reverse of the current one. */
    method ChangeDirection(next: Direction)
      modifies this
      ensures direction == (if next == Opposite(old(direction)) then old(direction) else next)
      ensures body == old(body)
    {
      match (direction, next)
      case (Up, Down) =>
      case (Down, Up) =>
      case (Left, Right) =>
      case (Right, Left) =>
      case _ => direction := next;
    }

    function HeadPosition(): (p: Position)
      reads this
      requires |body| > 0
      ensures p in body && p == body[0]
    {
      body[0]
    }

    predicate OverlapsWith(pos: Position)
      reads this
      ensures OverlapsWith(pos) <==> exists i :: 0 <= i < |body| && body[i] == pos
    {
      pos in body
    }
  }

  // ---------------------------------------------------------------------------
  // The transitions of a game, as functions of its observable state

  /** What every reachable game keeps: a body of three or more cells, a timer in range, an active power-up. */
  predicate WellFormed(s: GameState)
  {
    && |s.body| >= 3
    && TimerInRange(s.timer)
    && (s.powerUp.Some? ==> s.powerUp.value.active)
  }

  /** The body and heading a new game starts with. */
  const StartBody: seq<Position> := [Position(10, 10), Position(11, 10), Position(12, 10)]

  /** generate_food: the first draw off the snake becomes the food; old and new cells are marked. */
  function FoodPlaced(s: GameState, draws: seq<Position>): (r: GameState)
    ensures r.(food := s.food, dirty := s.dirty) == s
    ensures s.dirty <= r.dirty
    ensures r.food == s.food || (r.food in draws && r.food !in s.body)
    ensures r.food != s.food ==> s.food in r.dirty && r.food in r.dirty
  {
    match FirstFree(draws, s.body, {})
    case None => s
    case Some(p) => s.(food := p, dirty := s.dirty + {s.food, p})
  }

  /** generate_power_up: nothing while a power-up is on the board, otherwise one spawn attempt. */
  function PowerUpPlaced(s: GameState, roll: PowerUpRoll): (r: GameState)
    ensures r.(powerUp := s.powerUp, dirty := s.dirty) == s
    ensures s.dirty <= r.dirty
    ensures s.powerUp.Some? ==> r == s
    ensures r.powerUp != s.powerUp ==>
              && r.powerUp.Some? && r.powerUp.value.active && r.powerUp.value.kind == roll.kind
              && r.powerUp.value.position !in s.body && r.powerUp.value.position != s.food
              && r.powerUp.value.position in r.dirty && r.powerUp.value.position in roll.draws
    ensures WellFormed(s) ==> WellFormed(r)
  {
    if s.powerUp.Some? then s
    else match SpawnResult(roll, s.body, s.food)
      case None => s
      case Some(pu) => s.(powerUp := Some(pu), dirty := s.dirty + {pu.position})
  }

  /** apply_power_up_effect: the one-shot effect of a collected power-up. */
  function EffectApplied(s: GameState, kind: PowerUpType): (r: GameState)
    requires WellFormed(s)
    ensures WellFormed(r)
    ensures r.score >= s.score
    ensures r.body[0] == s.body[0]
    ensures r.(body := s.body, score := s.score, timer := s.timer) == s
  {
    EffectBodyShape(s.body, kind);
    s.(body := EffectBody(s.body, kind),
       score := EffectScore(s.score, kind),
       timer := EffectTimer(s.timer, kind))
  }

  /** check_power_up_collision: a head on the active power-up collects it and a respawn is attempted. */
  function PowerUpCollected(s: GameState, roll: PowerUpRoll): (r: GameState)
    requires WellFormed(s)
    ensures WellFormed(r)
    ensures r.score >= s.score && s.dirty <= r.dirty
    ensures r.food == s.food && r.direction == s.direction && r.gameOver == s.gameOver
    ensures r.paused == s.paused && r.muted == s.muted
    ensures Collected(s.powerUp, s.body[0]).None? ==> r == s
    ensures Collected(s.powerUp, s.body[0]).Some? ==>
              && r.powerUp != s.powerUp
              && (r.powerUp.Some? ==>
                    && r.powerUp.value.position !in r.body && r.powerUp.value.position != r.food
                    && r.powerUp.value.kind == roll.kind && r.powerUp.value.position in roll.draws)
  {
    match Collected(s.powerUp, s.body[0])
    case None => s
    case Some(kind) => PowerUpPlaced(EffectApplied(s, kind).(powerUp := None), roll)
  }

  /** The timer step of tick: update_power_up_effects runs only while a timer is set. */
  function TimerStepped(s: GameState): (r: GameState)
    requires TimerInRange(s.timer)
    ensures TimerInRange(r.timer)
    ensures r == s.(timer := CountDown(s.timer))
  {
    if s.timer.Some? then s.(timer := CountDown(s.timer)) else s
  }

  /** move_forward: a new head in front, and the tail dropped unless growing. */
  function Moved(s: GameState, grow: bool, width: u16, height: u16): (r: GameState)
    requires |s.body| > 0 && width >= 2 && height >= 2
    ensures |r.body| == |s.body| + (if grow then 1 else 0)
    ensures r.body[0] == NextHead(s.body[0], s.direction, width, height)
    ensures r.body[1..] == (if grow then s.body else s.body[..|s.body| - 1])
    ensures r.(body := s.body) == s
  {
    s.(body := [NextHead(s.body[0], s.direction, width, height)] +
               (if grow then s.body else s.body[..|s.body| - 1]))
  }

  /**
   * The redraw marks after a move, as tick writes them: the new head, the
   * old head (now second), and the pre-tick tail only when the body has
   * become shorter than its pre-tick copy (see TailMarkAsWritten).
   */
  function MarkedAfterMove(s: GameState, before: seq<Position>, grow: bool): (r: GameState)
    requires |s.body| > 0
    ensures r.(dirty := s.dirty) == s
    ensures s.dirty <= r.dirty && s.body[0] in r.dirty && (|s.body| > 1 ==> s.body[1] in r.dirty)
    ensures TailMarkAsWritten(before, s.body, grow) <= r.dirty
  {
    s.(dirty := s.dirty + {s.body[0]} + (if |s.body| > 1 then {s.body[1]} else {}) +
                TailMarkAsWritten(before, s.body, grow))
  }

  /** The food step of tick: ten points, the eaten cell marked, new food, the new cell marked. */
  function FoodEaten(s: GameState, draws: seq<Position>): (r: GameState)
    ensures r.score == s.score + 10
    ensures r.(score := s.score, food := s.food, dirty := s.dirty) == s
    ensures s.dirty <= r.dirty && s.food in r.dirty && r.food in r.dirty
    ensures r.food == s.food || (r.food in draws && r.food !in s.body)
  {
    var placed := FoodPlaced(s.(score := s.score + 10, dirty := s.dirty + {s.food}), draws);
    placed.(dirty := placed.dirty + {placed.food})
  }

  /** A tick that neither finds the game over nor runs the head into the body. */
  predicate Live(s: GameState)
  {
    !s.gameOver && |s.body| > 0 && s.body[0] !in s.body[1..]
  }

  /** The food part of a live tick: FoodEaten when the head is on the food, nothing otherwise. */
  function Fed(s: GameState, draws: seq<Position>): (r: GameState)
    requires WellFormed(s)
    ensures WellFormed(r)
    ensures r.body == s.body && r.powerUp == s.powerUp && r.timer == s.timer
    ensures r.direction == s.direction && r.gameOver == s.gameOver && r.paused == s.paused && r.muted == s.muted
    ensures r.score == s.score + (if s.body[0] == s.food then 10 else 0)
    ensures s.dirty <= r.dirty
    ensures s.body[0] != s.food ==> r.food == s.food
    ensures s.body[0] == s.food ==>
              && s.food in r.dirty && r.food in r.dirty
              && r.food == (match FirstFree(draws, s.body, {}) case Some(p) => p case None => s.food)
  {
    if s.body[0] == s.food then FoodEaten(s, draws) else s
  }

  /** The occasional extra spawn of tick: attempted only when no power-up is on the board. */
  function Spawned(s: GameState, occasional: bool, extra: PowerUpRoll): (r: GameState)
    requires WellFormed(s)
    ensures WellFormed(r)
    ensures r.(powerUp := s.powerUp, dirty := s.dirty) == s
    ensures s.dirty <= r.dirty
    ensures r.powerUp != s.powerUp ==>
              && r.powerUp.Some? && r.powerUp.value.active && r.powerUp.value.kind == extra.kind
              && r.powerUp.value.position !in s.body && r.powerUp.value.position != s.food
              && r.powerUp.value.position in r.dirty && r.powerUp.value.position in extra.draws
  {
    if s.powerUp.None? && occasional then PowerUpPlaced(s, extra) else s
  }

  /**
   * The parts of a live tick before the move, in source order: food, power-up
   * collection, the effect timer, and the occasional extra power-up.
   */
  function PreMove(s: GameState, foodDraws: seq<Position>, refill: PowerUpRoll, occasional: bool,
                   extra: PowerUpRoll): (r: GameState)
    requires WellFormed(s)
    ensures WellFormed(r)
  {
    Spawned(TimerStepped(PowerUpCollected(Fed(s, foodDraws), refill)), occasional, extra)
  }

  /** One game step (tick), in the order core/mod.rs performs its parts. */
  function TickResult(s: GameState, foodDraws: seq<Position>, refill: PowerUpRoll, occasional: bool,
                      extra: PowerUpRoll, width: u16, height: u16): (r: GameState)
    requires WellFormed(s) && width >= 3 && height >= 3
    ensures WellFormed(r)
  {
    if s.gameOver then s
    else if s.body[0] in s.body[1..] then s.(gameOver := true)
    else MarkedAfterMove(Moved(PreMove(s, foodDraws, refill, occasional, extra), s.body[0] == s.food, width, height),
                         s.body, s.body[0] == s.food)
  }

  /**
   * The tick with the tail bookkeeping corrected (see README, Findings):
   * besides the marks tick writes, every cell of the pre-tick body that the
   * moved body no longer covers is marked, so the renderer blanks it.
   */
  function TickResultIntended(s: GameState, foodDraws: seq<Position>, refill: PowerUpRoll, occasional: bool,
                              extra: PowerUpRoll, width: u16, height: u16): (r: GameState)
    requires WellFormed(s) && width >= 3 && height >= 3
    ensures WellFormed(r)
    ensures var t := TickResult(s, foodDraws, refill, occasional, extra, width, height);
            r.(dirty := t.dirty) == t && t.dirty <= r.dirty
  {
    var t := TickResult(s, foodDraws, refill, occasional, extra, width, height);
    if Live(s) then t.(dirty := t.dirty + VacatedCells(s.body, t.body)) else t
  }

  /** A new game before its first tick (Game::new). */
  function NewGame(foodDraws: seq<Position>, roll: PowerUpRoll): (r: GameState)
    ensures WellFormed(r)
  {
    var blank := GameState(StartBody, Left, Position(0, 0), 0, false, false, None, None, {}, false);
    var placed := PowerUpPlaced(FoodPlaced(blank, foodDraws), roll);
    placed.(dirty := placed.dirty + (set p | p in placed.body) + {placed.food} +
                     (if placed.powerUp.Some? then {placed.powerUp.value.position} else {}))
  }

  // ---------------------------------------------------------------------------
  // The game

  class Game {
    const snake: Snake
    var food: Position
    var score: nat
    var gameOver: bool
    const difficulty: Difficulty
    var paused: bool
    var powerUp: Option<PowerUp>
    var powerUpTimer: Option<nat>
    var dirtyPositions: set<Position>
    const width: u16
    const height: u16
    var muted: bool

    ghost function State(): GameState
      reads this, snake
    {
      GameState(snake.body, snake.direction, food, score, gameOver, paused,
                powerUp, powerUpTimer, dirtyPositions, muted)
    }

    ghost predicate Valid()
      reads this, snake
    {
      width >= 3 && height >= 3 && WellFormed(State())
    }

    constructor (difficulty: Difficulty, width: u16, height: u16,
                 foodDraws: seq<Position>, initialRoll: PowerUpRoll)
      requires width >= 3 && height >= 3
      requires DrawsInside(foodDraws, width, height) && DrawsInside(initialRoll.draws, width, height)
      ensures State() == NewGame(foodDraws, initialRoll)
      ensures Valid() && fresh(snake)
      ensures this.difficulty == difficulty && this.width == width && this.height == height
    {
      snake := new Snake();
      food := Position(0, 0);
      score := 0;
      gameOver := false;
      this.difficulty := difficulty;
      paused := false;
      powerUp := None;
      powerUpTimer := None;
      dirtyPositions := {};
      this.width := width;
      this.height := height;
      muted := false;
      new;
      ghost var blank := State();
      assert blank == GameState(StartBody, Left, Position(0, 0), 0, false, false, None, None, {}, false);
      GenerateFood(foodDraws);
      GeneratePowerUp(initialRoll);
      assert State() == PowerUpPlaced(FoodPlaced(blank, foodDraws), initialRoll);
      MarkInitialCells();
    }

    /** The end of Game::new: every body cell, the food and any power-up are marked for the first draw. */
    method MarkInitialCells()
      modifies this
      ensures State() == old(State()).(dirty := old(dirtyPositions) + (set p | p in snake.body) + {food} +
                                              (if powerUp.Some? then {powerUp.value.position} else {}))
    {
      var i := 0;
      while i < |snake.body|
        invariant 0 <= i <= |snake.body|
        invariant State() == old(State()).(dirty := dirtyPositions)
        invariant dirtyPositions == old(dirtyPositions) + set p | p in snake.body[..i]
      {
        assert snake.body[..i + 1] == snake.body[..i] + [snake.body[i]];
        dirtyPositions := dirtyPositions + {snake.body[i]};
        i := i + 1;
      }
      assert snake.body[..i] == snake.body;
      dirtyPositions := dirtyPositions + {food};
      if powerUp.Some? {
        dirtyPositions := dirtyPositions + {powerUp.value.position};
      }
    }

    method TogglePause()
      modifies this
      ensures State() == old(State()).(paused := if old(gameOver) then old(paused) else !old(paused))
    {
      if !gameOver {
        paused := !paused;
      }
    }

    method ToggleMute()
      modifies this
      ensures State() == old(State()).(muted := !old(muted))
    {
      muted := !muted;
    }

    method MarkPositionDirty(pos: Position)
      modifies this
      ensures State() == old(State()).(dirty := old(dirtyPositions) + {pos})
    {
      dirtyPositions := dirtyPositions + {pos};
    }

    method UpdateSnakeDirection(direction: Direction)
      modifies snake
      ensures State() == old(State()).(direction :=
        if direction == Opposite(old(snake.direction)) then old(snake.direction) else direction)
    {
      snake.ChangeDirection(direction);
    }

    /** Applies a collected power-up's one-shot effect. */
    method ApplyPowerUpEffect(kind: PowerUpType)
      requires Valid()
      modifies this, snake
      ensures Valid()
      ensures State() == EffectApplied(old(State()), kind)
    {
      match kind
      case SpeedBoost =>
        powerUpTimer := Some(100);
      case SlowDown =>
        powerUpTimer := Some(100);
      case ExtraPoints =>
        score := score + 50;
      case Grow =>
        var last := snake.body[|snake.body| - 1];
        for i := 0 to 2
          invariant snake.body == old(snake.body) + seq(i, _ => last)
          invariant unchanged(this) && snake.direction == old(snake.direction)
        {
          snake.body := snake.body + [snake.body[|snake.body| - 1]];
        }
        assert seq(2, _ => last) == [last, last];
      case Shrink =>
        if |snake.body| > 3 {
          snake.body := snake.body[..|snake.body| - 1];
          if |snake.body| > 3 {
            snake.body := snake.body[..|snake.body| - 1];
          }
        }
    }

    /** Counts the speed-effect timer down by one tick and removes it at zero. */
    method UpdatePowerUpEffects()
      requires Valid()
      modifies this
      ensures Valid()
      ensures State() == old(State()).(timer := CountDown(old(powerUpTimer)))
    {
      if powerUpTimer.Some? {
        var t := powerUpTimer.value - 1;
        powerUpTimer := Some(t);
        if t == 0 {
          powerUpTimer := None;
        }
      }
    }

    /** Rejection sampling: the first drawn cell off the snake becomes the food. */
    method GenerateFood(draws: seq<Position>)
      requires DrawsInside(draws, width, height)
      modifies this
      ensures State() == FoodPlaced(old(State()), draws)
      ensures food != old(food) ==> InInterior(food, width, height)
    {
      var i := 0;
      while i < |draws|
        invariant 0 <= i <= |draws|
        invariant forall j :: 0 <= j < i ==> draws[j] in snake.body
        invariant State() == old(State())
      {
        var candidate := draws[i];
        if !snake.OverlapsWith(candidate) {
          MarkPositionDirty(food);
          food := candidate;
          MarkPositionDirty(food);
          FirstFreeIsFirst(draws, snake.body, {}, i);
          return;
        }
        i := i + 1;
      }
    }

    /** At most one power-up: a spawn attempt only runs on an empty board. */
    method GeneratePowerUp(roll: PowerUpRoll)
      requires DrawsInside(roll.draws, width, height)
      modifies this
      ensures State() == PowerUpPlaced(old(State()), roll)
      ensures powerUp != old(powerUp) ==> powerUp.Some? && InInterior(powerUp.value.position, width, height)
    {
      if powerUp.Some? {
        return;
      }
      if roll.spawn {
        var i := 0;
        while i < |roll.draws|
          invariant 0 <= i <= |roll.draws|
          invariant forall j :: 0 <= j < i ==> roll.draws[j] in snake.body || roll.draws[j] == food
          invariant State() == old(State())
        {
          var candidate := roll.draws[i];
          if !snake.OverlapsWith(candidate) && candidate != food {
            // The board held no power-up, so there is no old cell to mark.
            powerUp := Some(PowerUp(candidate, roll.kind, true));
            MarkPositionDirty(candidate);
            FirstFreeIsFirst(roll.draws, snake.body, {food}, i);
            return;
          }
          i := i + 1;
        }
      }
    }

    /** Picks up the power-up under the head, applies it and attempts a respawn. */
    method CheckPowerUpCollision(roll: PowerUpRoll)
      requires Valid() && DrawsInside(roll.draws, width, height)
      modifies this, snake
      ensures Valid()
      ensures State() == PowerUpCollected(old(State()), roll)
    {
      if powerUp.Some? {
        var pu := powerUp.value;
        if snake.HeadPosition() == pu.position && pu.active {
          ApplyPowerUpEffect(pu.kind);
          powerUp := None;
          GeneratePowerUp(roll);
        }
      }
    }

    /**
     * One game step. Collision, food and power-up pickup are all judged from
     * the head BEFORE this tick's move; the snake moves last.
     */
    method Tick(foodDraws: seq<Position>, refill: PowerUpRoll, occasional: bool, extra: PowerUpRoll)
      requires Valid()
      requires DrawsInside(foodDraws, width, height)
      requires DrawsInside(refill.draws, width, height) && DrawsInside(extra.draws, width, height)
      modifies this, snake
      ensures State() == TickResult(old(State()), foodDraws, refill, occasional, extra, width, height)
      ensures Valid()
    {
      if gameOver {
        return;
      }
      var before := snake.body;
      var head := snake.HeadPosition();
      if head in snake.body[1..] {
        gameOver := true;
        return;
      }
      ghost var s := State();
      var grow := head == food;
      if grow {
        score := score + 10;
        MarkPositionDirty(food);
        GenerateFood(foodDraws);
        MarkPositionDirty(food);
      }
      ghost var fed := Fed(s, foodDraws);
      assert State() == fed;
      CheckPowerUpCollision(refill);
      if powerUpTimer.Some? {
        UpdatePowerUpEffects();
      }
      ghost var timed := TimerStepped(PowerUpCollected(fed, refill));
      assert State() == timed;
      if powerUp.None? && occasional {
        GeneratePowerUp(extra);
      }
      assert State() == PreMove(s, foodDraws, refill, occasional, extra);
      MoveAndMark(grow, before);
      assert State() == TickResult(s, foodDraws, refill, occasional, extra, width, height);
    }

    /**
     * The last part of tick: the snake moves, the new head and the old head
     * are marked, and the pre-tick tail is marked when not growing and the
     * pre-tick body is longer than the moved one.
     */
    method MoveAndMark(grow: bool, before: seq<Position>)
      requires |snake.body| >= 3 && width >= 3 && height >= 3
      modifies this, snake
      ensures State() == MarkedAfterMove(Moved(old(State()), grow, width, height), before, grow)
    {
      ghost var moved := Moved(State(), grow, width, height);
      snake.MoveForward(grow, width, height);
      assert State() == moved;
      MarkPositionDirty(snake.HeadPosition());
      if |snake.body| > 1 {
        MarkPositionDirty(snake.body[1]);
      }
      ghost var heads := moved.(dirty := moved.dirty + {moved.body[0]} + {moved.body[1]});
      assert State() == heads;
      MarkOldTail(grow, before);
    }

    /** The old-tail mark of tick, under its written condition. */
    method MarkOldTail(grow: bool, before: seq<Position>)
      modifies this
      ensures State() == old(State()).(dirty := old(dirtyPositions) + TailMarkAsWritten(before, snake.body, grow))
    {
      if !grow && |before| > |snake.body| {
        MarkPositionDirty(before[|before| - 1]);
      }
    }
  }

  // ---------------------------------------------------------------------------
  // What one tick promises

  /** The power-up kind a live tick collects: judged at the pre-move head. */
  function Pickup(s: GameState): Option<PowerUpType>
    requires |s.body| > 0
  {
    Collected(s.powerUp, s.body[0])
  }

  /** The body after the collected effect, before the move. */
  function Shaped(s: GameState): (r: seq<Position>)
    requires |s.body| >= 3
    ensures |r| >= 3
  {
    match Pickup(s)
    case None => s.body
    case Some(kind) => EffectBodyShape(s.body, kind); EffectBody(s.body, kind)
  }

  /** The live part of a tick is the move applied to the pre-move state, followed by the redraw marks. */
  lemma LiveTick(s: GameState, foodDraws: seq<Position>, refill: PowerUpRoll, occasional: bool,
                 extra: PowerUpRoll, width: u16, height: u16)
    requires WellFormed(s) && width >= 3 && height >= 3 && Live(s)
    ensures TickResult(s, foodDraws, refill, occasional, extra, width, height) ==
            MarkedAfterMove(Moved(PreMove(s, foodDraws, refill, occasional, extra), s.body[0] == s.food,
                                  width, height), s.body, s.body[0] == s.food)
  {
  }

  /** The pre-move state keeps the heading and flags; its body is the shaped body. */
  lemma PreMoveBody(s: GameState, foodDraws: seq<Position>, refill: PowerUpRoll, occasional: bool, extra: PowerUpRoll)
    requires WellFormed(s)
    ensures var p := PreMove(s, foodDraws, refill, occasional, extra);
            && p.direction == s.direction && p.paused == s.paused && p.muted == s.muted
            && p.gameOver == s.gameOver && p.body == Shaped(s)
  {
    CollectStage(Fed(s, foodDraws), refill);
  }

  /** The pre-move timer: 100 after a speed pickup, otherwise the old timer, then one countdown step. */
  lemma PreMoveTimer(s: GameState, foodDraws: seq<Position>, refill: PowerUpRoll, occasional: bool, extra: PowerUpRoll)
    requires WellFormed(s)
    ensures PreMove(s, foodDraws, refill, occasional, extra).timer ==
            (if Pickup(s) == Some(SpeedBoost) || Pickup(s) == Some(SlowDown) then Some(99) else CountDown(s.timer))
  {
    var fed := Fed(s, foodDraws);
    CollectStage(fed, refill);
    var collected := PowerUpCollected(fed, refill);
    var restarted := Pickup(s) == Some(SpeedBoost) || Pickup(s) == Some(SlowDown);
    assert collected.timer == (if restarted then Some(100) else s.timer);
  }

  /** The pre-move score: ten for food, fifty more for ExtraPoints. */
  lemma PreMoveScore(s: GameState, foodDraws: seq<Position>, refill: PowerUpRoll, occasional: bool, extra: PowerUpRoll)
    requires WellFormed(s)
    ensures PreMove(s, foodDraws, refill, occasional, extra).score ==
            s.score + (if s.body[0] == s.food then 10 else 0) + (if Pickup(s) == Some(ExtraPoints) then 50 else 0)
  {
    CollectStage(Fed(s, foodDraws), refill);
  }

  /** What collection does to the body, the timer and the score: the effect of the kind collected, if any. */
  lemma CollectStage(s: GameState, roll: PowerUpRoll)
    requires WellFormed(s)
    ensures var r := PowerUpCollected(s, roll);
            && r.body == (match Pickup(s) case Some(kind) => EffectBody(s.body, kind) case None => s.body)
            && r.timer == (match Pickup(s) case Some(kind) => EffectTimer(s.timer, kind) case None => s.timer)
            && r.score == (match Pickup(s) case Some(kind) => EffectScore(s.score, kind) case None => s.score)
  {
  }

  /** A finished game ignores ticks; a head on its own body ends the game and nothing else changes. */
  lemma TickStopsOnGameOver(s: GameState, foodDraws: seq<Position>, refill: PowerUpRoll, occasional: bool,
                            extra: PowerUpRoll, width: u16, height: u16)
    requires WellFormed(s) && width >= 3 && height >= 3
    ensures var r := TickResult(s, foodDraws, refill, occasional, extra, width, height);
            && (s.gameOver ==> r == s)
            && (!s.gameOver && s.body[0] in s.body[1..] ==> r == s.(gameOver := true))
            && (Live(s) ==> !r.gameOver)
  {
    if Live(s) {
      LiveTick(s, foodDraws, refill, occasional, extra, width, height);
      PreMoveBody(s, foodDraws, refill, occasional, extra);
    }
  }

  /** Ten points for food eaten, fifty more for collected ExtraPoints, and nothing else. */
  lemma TickScore(s: GameState, foodDraws: seq<Position>, refill: PowerUpRoll, occasional: bool,
                  extra: PowerUpRoll, width: u16, height: u16)
    requires WellFormed(s) && width >= 3 && height >= 3
    ensures var r := TickResult(s, foodDraws, refill, occasional, extra, width, height);
            && r.score >= s.score
            && (Live(s) ==> r.score == s.score + (if s.body[0] == s.food then 10 else 0) +
                                       (if Pickup(s) == Some(ExtraPoints) then 50 else 0))
  {
    if Live(s) {
      LiveTick(s, foodDraws, refill, occasional, extra, width, height);
      PreMoveScore(s, foodDraws, refill, occasional, extra);
    }
  }

  /**
   * The snake moves one cell along its heading: the new head is in front of
   * the old one, the rest is the (effect-shaped) body, one cell longer when
   * food was eaten and with its tail dropped otherwise.
   */
  lemma TickMovesSnake(s: GameState, foodDraws: seq<Position>, refill: PowerUpRoll, occasional: bool,
                       extra: PowerUpRoll, width: u16, height: u16)
    requires WellFormed(s) && width >= 3 && height >= 3 && Live(s)
    ensures var r := TickResult(s, foodDraws, refill, occasional, extra, width, height);
            var grow := s.body[0] == s.food;
            && r.direction == s.direction && r.paused == s.paused && r.muted == s.muted
            && r.body[0] == NextHead(s.body[0], s.direction, width, height)
            && r.body[1..] == (if grow then Shaped(s) else Shaped(s)[..|Shaped(s)| - 1])
            && |r.body| == |Shaped(s)| + (if grow then 1 else 0)
  {
    LiveTick(s, foodDraws, refill, occasional, extra, width, height);
    PreMoveBody(s, foodDraws, refill, occasional, extra);
  }

  /** With no food and no power-up under the head, the body shifts by one cell and keeps its length. */
  lemma OrdinaryTickShiftsBody(s: GameState, foodDraws: seq<Position>, refill: PowerUpRoll, occasional: bool,
                               extra: PowerUpRoll, width: u16, height: u16)
    requires WellFormed(s) && width >= 3 && height >= 3 && Live(s)
    requires s.body[0] != s.food && Pickup(s).None?
    ensures var r := TickResult(s, foodDraws, refill, occasional, extra, width, height);
            && |r.body| == |s.body|
            && r.body == [NextHead(s.body[0], s.direction, width, height)] + s.body[..|s.body| - 1]
  {
    TickMovesSnake(s, foodDraws, refill, occasional, extra, width, height);
  }

  /** Eating food without a power-up makes the snake exactly one cell longer, keeping every old cell. */
  lemma EatingGrowsByOne(s: GameState, foodDraws: seq<Position>, refill: PowerUpRoll, occasional: bool,
                         extra: PowerUpRoll, width: u16, height: u16)
    requires WellFormed(s) && width >= 3 && height >= 3 && Live(s)
    requires s.body[0] == s.food && Pickup(s).None?
    ensures var r := TickResult(s, foodDraws, refill, occasional, extra, width, height);
            && |r.body| == |s.body| + 1
            && r.body == [NextHead(s.body[0], s.direction, width, height)] + s.body
  {
    TickMovesSnake(s, foodDraws, refill, occasional, extra, width, height);
  }

  /**
   * The cells a tick marks for redrawing, as written: the new head, the old
   * head, both food cells when food was eaten, and the pre-tick tail only
   * under the shrink condition of TailMarkAsWritten. Marks are never removed.
   */
  lemma TickMarksChangedCells(s: GameState, foodDraws: seq<Position>, refill: PowerUpRoll, occasional: bool,
                              extra: PowerUpRoll, width: u16, height: u16)
    requires WellFormed(s) && width >= 3 && height >= 3 && Live(s)
    ensures var r := TickResult(s, foodDraws, refill, occasional, extra, width, height);
            && s.dirty <= r.dirty
            && r.body[0] in r.dirty && s.body[0] in r.dirty
            && TailMarkAsWritten(s.body, r.body, s.body[0] == s.food) <= r.dirty
            && (s.body[0] == s.food ==> s.food in r.dirty && r.food in r.dirty)
  {
    LiveTick(s, foodDraws, refill, occasional, extra, width, height);
    PreMoveBody(s, foodDraws, refill, occasional, extra);
    PreMoveMarks(s, foodDraws, refill, occasional, extra);
  }

  /**
   * The corrected tick marks every cell whose contents change: all the marks
   * of the tick as written, and every cell the body has left.
   */
  lemma IntendedTickMarksVacatedCells(s: GameState, foodDraws: seq<Position>, refill: PowerUpRoll,
                                      occasional: bool, extra: PowerUpRoll, width: u16, height: u16)
    requires WellFormed(s) && width >= 3 && height >= 3 && Live(s)
    ensures var r := TickResultIntended(s, foodDraws, refill, occasional, extra, width, height);
            && s.dirty <= r.dirty
            && r.body[0] in r.dirty && s.body[0] in r.dirty
            && VacatedCells(s.body, r.body) <= r.dirty
            && (s.body[0] == s.food ==> s.food in r.dirty && r.food in r.dirty)
  {
    TickMarksChangedCells(s, foodDraws, refill, occasional, extra, width, height);
  }

  /** The pre-move parts only add marks, including both food cells when food is eaten, and keep the food otherwise. */
  lemma PreMoveMarks(s: GameState, foodDraws: seq<Position>, refill: PowerUpRoll, occasional: bool, extra: PowerUpRoll)
    requires WellFormed(s)
    ensures var p := PreMove(s, foodDraws, refill, occasional, extra);
            && s.dirty <= p.dirty
            && (s.body[0] == s.food ==> s.food in p.dirty && p.food in p.dirty)
            && (s.body[0] != s.food ==> p.food == s.food)
            && (s.body[0] == s.food ==>
                  p.food == (match FirstFree(foodDraws, s.body, {}) case Some(p) => p case None => s.food))
  {
  }

  /** Food moves only when eaten, and then to a drawn cell off the pre-tick body. */
  lemma TickPlacesFood(s: GameState, foodDraws: seq<Position>, refill: PowerUpRoll, occasional: bool,
                       extra: PowerUpRoll, width: u16, height: u16)
    requires WellFormed(s) && width >= 3 && height >= 3 && Live(s)
    ensures var r := TickResult(s, foodDraws, refill, occasional, extra, width, height);
            && (s.body[0] != s.food ==> r.food == s.food)
            && (s.body[0] == s.food ==>
                  r.food == (match FirstFree(foodDraws, s.body, {}) case Some(p) => p case None => s.food))
  {
    LiveTick(s, foodDraws, refill, occasional, extra, width, height);
    PreMoveMarks(s, foodDraws, refill, occasional, extra);
  }

  /**
   * A collected speed effect restarts the timer at 100 and the tick then
   * counts it down once; otherwise the running timer just counts down.
   */
  lemma TickTimer(s: GameState, foodDraws: seq<Position>, refill: PowerUpRoll, occasional: bool,
                  extra: PowerUpRoll, width: u16, height: u16)
    requires WellFormed(s) && width >= 3 && height >= 3 && Live(s)
    ensures var r := TickResult(s, foodDraws, refill, occasional, extra, width, height);
            r.timer == (if Pickup(s) == Some(SpeedBoost) || Pickup(s) == Some(SlowDown) then Some(99)
                        else CountDown(s.timer))
  {
    LiveTick(s, foodDraws, refill, occasional, extra, width, height);
    PreMoveTimer(s, foodDraws, refill, occasional, extra);
  }

  /**
   * At most one power-up is on the board. A collected one is gone unless a
   * spawn replaces it, and a power-up that appears is active, of the kind
   * drawn, off the shaped body and off the food.
   */
  lemma TickPowerUp(s: GameState, foodDraws: seq<Position>, refill: PowerUpRoll, occasional: bool,
                    extra: PowerUpRoll, width: u16, height: u16)
    requires WellFormed(s) && width >= 3 && height >= 3 && Live(s)
    ensures var r := TickResult(s, foodDraws, refill, occasional, extra, width, height);
            && (Pickup(s).None? && s.powerUp.Some? ==> r.powerUp == s.powerUp)
            && (Pickup(s).Some? ==> r.powerUp != s.powerUp)
            && (r.powerUp.Some? && r.powerUp != s.powerUp ==>
                  && r.powerUp.value.active
                  && (r.powerUp.value.kind == refill.kind || r.powerUp.value.kind == extra.kind)
                  && r.powerUp.value.position !in Shaped(s)
                  && r.powerUp.value.position != r.food
                  && r.powerUp.value.position in r.dirty
                  && (r.powerUp.value.position in refill.draws || r.powerUp.value.position in extra.draws))
  {
    LiveTick(s, foodDraws, refill, occasional, extra, width, height);
    PreMoveBody(s, foodDraws, refill, occasional, extra);
  }

  /**
   * A new game: the start body heading left, nothing scored, food on the
   * first draw off the body, a power-up only if the first roll places one,
   * and everything on the board marked for the first draw.
   */
  lemma NewGameStarts(foodDraws: seq<Position>, roll: PowerUpRoll)
    ensures var r := NewGame(foodDraws, roll);
            && r.body == StartBody && r.direction == Left
            && r.score == 0 && !r.gameOver && !r.paused && !r.muted && r.timer.None?
            && r.food == (match FirstFree(foodDraws, StartBody, {}) case Some(p) => p case None => Position(0, 0))
            && r.powerUp == SpawnResult(roll, StartBody, r.food)
            && (forall p :: p in StartBody ==> p in r.dirty)
            && r.food in r.dirty
            && (r.powerUp.Some? ==> r.powerUp.value.position in r.dirty)
  {
  }

  // ---------------------------------------------------------------------------
  // The tail bookkeeping of tick (see README, Findings)

  /** As written, the tail mark needs a body shorter than its pre-tick copy, which an ordinary move never has. */
  lemma TailMarkAsWrittenSkipsOrdinaryMove(before: seq<Position>, after: seq<Position>)
    requires |after| == |before|
    ensures TailMarkAsWritten(before, after, false) == {}
  {
  }

  /** The smallest case: the start snake steps left and its old tail cell is left unmarked. */
  lemma TailMarkAsWrittenMissesVacatedTail()
    ensures var before := StartBody;
            var after := [Position(9, 10), Position(10, 10), Position(11, 10)];
            && Position(12, 10) in VacatedCells(before, after)
            && Position(12, 10) !in TailMarkAsWritten(before, after, false)
  {
    var after := [Position(9, 10), Position(10, 10), Position(11, 10)];
    assert Position(12, 10) in StartBody;
    assert Position(12, 10) !in after;
  }

  /**
   * With the corrected bookkeeping, an ordinary tick marks the old tail cell
   * whenever the moved body does not cover it again.
   */
  lemma OrdinaryTickMarksOldTail(s: GameState, foodDraws: seq<Position>, refill: PowerUpRoll, occasional: bool,
                                 extra: PowerUpRoll, width: u16, height: u16)
    requires WellFormed(s) && width >= 3 && height >= 3 && Live(s)
    requires s.body[0] != s.food && Pickup(s).None?
    ensures var r := TickResultIntended(s, foodDraws, refill, occasional, extra, width, height);
            s.body[|s.body| - 1] !in r.body ==> s.body[|s.body| - 1] in r.dirty
  {
    IntendedTickMarksVacatedCells(s, foodDraws, refill, occasional, extra, width, height);
  }

  /**
   * The whole tick as written, on a new game (food at (20,5), no power-up,
   * marks cleared after the first draw) stepping left: it marks only the new
   * and the old head, and the vacated tail cell (12,10) keeps its glyph.
   * The corrected tick marks it.
   */
  lemma TickAsWrittenLeavesOldTail()
    ensures var noRoll := PowerUpRoll(false, [], Grow);
            var s := NewGame([Position(20, 5)], noRoll).(dirty := {});
            var r := TickResult(s, [], noRoll, false, noRoll, 40, 20);
            && Position(12, 10) in s.body && Position(12, 10) !in r.body
            && r.dirty == {Position(9, 10), Position(10, 10)}
            && Position(12, 10) in TickResultIntended(s, [], noRoll, false, noRoll, 40, 20).dirty
  {
    var noRoll := PowerUpRoll(false, [], Grow);
    ExampleGame();
    ExampleTick();
    var s := ExampleStart();
    var r := TickResult(s, [], noRoll, false, noRoll, 40, 20);
    assert Position(12, 10) in VacatedCells(s.body, r.body);
  }

  /** The example's game: the start snake, food at (20,5), no power-up, no marks. */
  function ExampleStart(): GameState
  {
    GameState(StartBody, Left, Position(20, 5), 0, false, false, None, None, {}, false)
  }

  lemma ExampleGame()
    ensures NewGame([Position(20, 5)], PowerUpRoll(false, [], Grow)).(dirty := {}) == ExampleStart()
  {
    NewGameStarts([Position(20, 5)], PowerUpRoll(false, [], Grow));
  }

  lemma ExampleTick()
    ensures var noRoll := PowerUpRoll(false, [], Grow);
            var r := TickResult(ExampleStart(), [], noRoll, false, noRoll, 40, 20);
            && r.body == [Position(9, 10), Position(10, 10), Position(11, 10)]
            && r.dirty == {Position(9, 10), Position(10, 10)}
  {
    var noRoll := PowerUpRoll(false, [], Grow);
    var s := ExampleStart();
    assert Live(s);
    assert PreMove(s, [], noRoll, false, noRoll) == s;
    var moved := Moved(s, false, 40, 20);
    assert moved.body == [Position(9, 10), Position(10, 10), Position(11, 10)];
    assert TailMarkAsWritten(s.body, moved.body, false) == {};
  }

  /** Every body cell, the food and any power-up lie inside the border. */
  predicate OnBoard(s: GameState, width: int, height: int)
  {
    && (forall i :: 0 <= i < |s.body| ==> InInterior(s.body[i], width, height))
    && InInterior(s.food, width, height)
    && (s.powerUp.Some? ==> InInterior(s.powerUp.value.position, width, height))
  }

  /** The effect-shaped body uses only cells of the body. */
  lemma ShapedCells(s: GameState)
    requires |s.body| >= 3
    ensures forall i :: 0 <= i < |Shaped(s)| ==> Shaped(s)[i] in s.body
  {
    match Pickup(s)
    case None =>
    case Some(kind) =>
      EffectBodyShape(s.body, kind);
      var b := EffectBody(s.body, kind);
      forall i | 0 <= i < |b|
        ensures b[i] in s.body
      {
        if kind == Grow && i >= |s.body| {
          assert b[i] == s.body[|s.body| - 1];
        } else {
          assert b[i] == s.body[i];
        }
      }
  }

  /** After a live tick every body cell is inside the border: the head wraps onto one, the rest are old cells. */
  lemma TickBodyOnBoard(s: GameState, foodDraws: seq<Position>, refill: PowerUpRoll, occasional: bool,
                        extra: PowerUpRoll, width: u16, height: u16)
    requires WellFormed(s) && width >= 3 && height >= 3 && Live(s)
    requires forall i :: 0 <= i < |s.body| ==> InInterior(s.body[i], width, height)
    ensures var r := TickResult(s, foodDraws, refill, occasional, extra, width, height);
            forall i :: 0 <= i < |r.body| ==> InInterior(r.body[i], width, height)
  {
    var r := TickResult(s, foodDraws, refill, occasional, extra, width, height);
    TickMovesSnake(s, foodDraws, refill, occasional, extra, width, height);
    ShapedCells(s);
    forall i | 1 <= i < |r.body|
      ensures InInterior(r.body[i], width, height)
    {
      assert r.body[i] == r.body[1..][i - 1];
      assert r.body[i] in Shaped(s);
    }
  }

  /**
   * With interior draws, a tick keeps everything on the board: the body by
   * TickBodyOnBoard, and new food and power-ups come from the draws.
   */
  lemma TickKeepsOnBoard(s: GameState, foodDraws: seq<Position>, refill: PowerUpRoll, occasional: bool,
                         extra: PowerUpRoll, width: u16, height: u16)
    requires WellFormed(s) && width >= 3 && height >= 3 && OnBoard(s, width, height)
    requires DrawsInside(foodDraws, width, height)
    requires DrawsInside(refill.draws, width, height) && DrawsInside(extra.draws, width, height)
    ensures OnBoard(TickResult(s, foodDraws, refill, occasional, extra, width, height), width, height)
  {
    if Live(s) {
      var r := TickResult(s, foodDraws, refill, occasional, extra, width, height);
      TickBodyOnBoard(s, foodDraws, refill, occasional, extra, width, height);
      TickPlacesFood(s, foodDraws, refill, occasional, extra, width, height);
      TickPowerUp(s, foodDraws, refill, occasional, extra, width, height);
      if r.food != s.food {
        assert r.food in foodDraws;
      }
    }
  }

  /** A new game whose food draw succeeds starts with everything on the board. */
  lemma NewGameOnBoard(foodDraws: seq<Position>, roll: PowerUpRoll, width: u16, height: u16)
    requires 14 <= width && 12 <= height
    requires DrawsInside(foodDraws, width, height) && DrawsInside(roll.draws, width, height)
    requires FirstFree(foodDraws, StartBody, {}).Some?
    ensures OnBoard(NewGame(foodDraws, roll), width, height)
  {
    NewGameStarts(foodDraws, roll);
  }

  lemma {:induction false} FirstFreeIsFirst(draws: seq<Position>, body: seq<Position>, avoid: set<Position>, i: nat)
    requires i < |draws| && draws[i] !in body && draws[i] !in avoid
    requires forall j :: 0 <= j < i ==> draws[j] in body || draws[j] in avoid
    ensures FirstFree(draws, body, avoid) == Some(draws[i])
    decreases i
  {
    if i > 0 {
      FirstFreeIsFirst(draws[1..], body, avoid, i - 1);
    }
  }
}
