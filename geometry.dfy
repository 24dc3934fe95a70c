/**
 * Plane vectors, rectangles and the game-wide constants of the platformer.
 * The source works in `f32`; this model uses `real`, so rounding is not modelled.
 */
module Geometry {

  /** Window size and history-buffer capacity, as the crate root declares them. */
  const WINDOW_WIDTH: real := 640.0
  const WINDOW_HEIGHT: real := 480.0
  const POSITION_BUFFER_SIZE: nat := 100

  /** A position, a velocity or an extent. */
  datatype Vec2 = Vec2(x: real, y: real) {

    function Plus(o: Vec2): Vec2 { Vec2(x + o.x, y + o.y) }

    function Minus(o: Vec2): Vec2 { Vec2(x - o.x, y - o.y) }

    function Scale(k: real): Vec2 { Vec2(x * k, y * k) }

    /** The squared length, the quantity under the source's square roots. */
    function Norm2(): real { x * x + y * y }
  }

  const ZERO: Vec2 := Vec2(0.0, 0.0)

  /** What a platform, a token or an enemy exposes to the player's collision passes. */
  datatype Rect = Rect(pos: Vec2, dim: Vec2)

  datatype Option<T> = None | Some(value: T)
}
