/**
 * Tokens: collectibles that scroll down the window and reappear above it
 * on a grid of columns 16 units apart.
 */
module Tokens {
  import opened Geometry
  import opened Scrolling

  const COLUMN_WIDTH: real := 16.0
  const ROW_HEIGHT: real := 15.0

  /** The column a draw selects: one of 0..29. */
  function Column(u: real): (k: int)
    requires 0.0 <= u < 1.0
    ensures 0 <= k <= 29
  {
    Slot(u, 30.0)
  }

  /** The row a draw selects for a random start: one of 0..42. */
  function Row(u: real): (m: int)
    requires 0.0 <= u < 1.0
    ensures 0 <= m <= 42
  {
    Slot(u, 42.6)
  }

  class Token {
    var position: Vec2
    const dimension: Vec2

    /** At `pos`, or at a random grid cell when `useRandom`: the row is drawn
        first (`yDraw`), then the column (`xDraw`). */
    constructor (dim: Vec2, useRandom: bool, pos: Vec2, yDraw: real, xDraw: real)
      requires useRandom ==> 0.0 <= yDraw < 1.0 && 0.0 <= xDraw < 1.0
      ensures dimension == dim
      ensures !useRandom ==> position == pos
      ensures useRandom ==> position == Vec2(Column(xDraw) as real * COLUMN_WIDTH, Row(yDraw) as real * ROW_HEIGHT)
      ensures useRandom ==> 0.0 <= position.x <= 29.0 * COLUMN_WIDTH && 0.0 <= position.y <= 42.0 * ROW_HEIGHT
    {
      dimension := dim;
      if useRandom {
        var y := (yDraw * 42.6).Floor as real * ROW_HEIGHT;
        var x := (xDraw * 30.0).Floor as real * COLUMN_WIDTH;
        position := Vec2(x, y);
      } else {
        position := pos;
      }
    }

    /** Scrolls down by `downSpeed`; past the bottom edge the token wraps up
        by the window height plus one row and moves to column `Column(xDraw)`. */
    method Update(downSpeed: real, xDraw: real)
      requires 0.0 <= xDraw < 1.0
      modifies this`position
      ensures position == Scroll(old(position), downSpeed, ROW_HEIGHT, Column(xDraw) as real * COLUMN_WIDTH)
    {
      position := position.(y := position.y + downSpeed);
      if position.y >= WINDOW_HEIGHT {
        position := position.(y := position.y - (WINDOW_HEIGHT + 1.0 * ROW_HEIGHT));
        position := position.(x := (xDraw * 30.0).Floor as real * COLUMN_WIDTH);
      }
    }

    function GetPos(): Vec2
      reads this
    {
      position
    }

    function GetDim(): Vec2 {
      dimension
    }
  }
}
