/**
 * Shared value types of the game: board coordinates, directions, difficulty
 * tiers and power-ups, plus the Option wrapper used throughout the model.
 */
module Utils {

  datatype Option<+T> = None | Some(value: T)

  datatype Result<+T, +E> = Ok(value: T) | Err(error: E)

  /** Rust's `u16`: coordinates and terminal sizes are 16-bit unsigned. */
  type u16 = x: int | 0 <= x < 0x1_0000

  const U16_MAX: int := 0xFFFF

  /** Board dimensions used by the main loop (WIDTH, HEIGHT). */
  const WIDTH: u16 := 40
  const HEIGHT: u16 := 20

  datatype Difficulty = Easy | Medium | Hard

  datatype Direction = Up | Down | Left | Right

  datatype Position = Position(x: u16, y: u16)

  datatype PowerUpType = SpeedBoost | SlowDown | ExtraPoints | Grow | Shrink

  datatype PowerUp = PowerUp(position: Position, kind: PowerUpType, active: bool)

  /** The heading that points the other way: an independent reference for every reversal test. */
  function Opposite(d: Direction): (r: Direction)
    ensures r != d
  {
    match d
    case Up => Down
    case Down => Up
    case Left => Right
    case Right => Left
  }

  /** A cell strictly inside the one-cell border of a `width` x `height` board. */
  predicate InInterior(p: Position, width: int, height: int)
  {
    1 <= p.x <= width - 2 && 1 <= p.y <= height - 2
  }

  /** Rust's `u16::wrapping_sub(1)`. */
  function WrappingDec(v: u16): (r: u16)
    ensures v > 0 ==> r == v - 1
    ensures v == 0 ==> r == U16_MAX
  {
    (v - 1) % 0x1_0000
  }

  /** Rust's `u16::wrapping_add(1)`. */
  function WrappingInc(v: u16): (r: u16)
    ensures v < U16_MAX ==> r == v + 1
    ensures v == U16_MAX ==> r == 0
  {
    (v + 1) % 0x1_0000
  }
}
