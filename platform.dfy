/**
 * Platforms: rectangles that scroll down the window and reappear above it
 * on a grid of columns 68 units apart.
 */
module Platforms {
  import opened Geometry
  import opened Scrolling

  const COLUMN_WIDTH: real := 68.0
  const ROW_HEIGHT: real := 37.0

  /** The column a draw selects: one of 0..9. */
  function Column(u: real): (k: int)
    requires 0.0 <= u < 1.0
    ensures 0 <= k <= 9
  {
    Slot(u, 9.41)
  }

  /** The row a draw selects for a random start: one of 0..12. */
  function Row(u: real): (m: int)
    requires 0.0 <= u < 1.0
    ensures 0 <= m <= 12
  {
    Slot(u, 12.97)
  }

  class Platform {
    var position: Vec2
    const dimension: Vec2

    /** At `pos`, or at a random grid cell when `useRandom`: column `Column(xDraw)`,
        row `Row(yDraw) + 1`. */
    constructor (dim: Vec2, useRandom: bool, pos: Vec2, xDraw: real, yDraw: real)
      requires useRandom ==> 0.0 <= xDraw < 1.0 && 0.0 <= yDraw < 1.0
      ensures dimension == dim
      ensures !useRandom ==> position == pos
      ensures useRandom ==> position == Vec2(Column(xDraw) as real * COLUMN_WIDTH, Row(yDraw) as real * ROW_HEIGHT + ROW_HEIGHT)
      ensures useRandom ==> 0.0 <= position.x <= 9.0 * COLUMN_WIDTH && ROW_HEIGHT <= position.y <= 13.0 * ROW_HEIGHT
    {
      dimension := dim;
      if useRandom {
        position := Vec2((xDraw * 9.41).Floor as real * COLUMN_WIDTH, (yDraw * 12.97).Floor as real * ROW_HEIGHT + ROW_HEIGHT);
      } else {
        position := pos;
      }
    }

    /** Scrolls down by `downSpeed`; past the bottom edge the platform wraps
        up by the window height plus one row and moves to column `Column(xDraw)`. */
    method Update(downSpeed: real, xDraw: real)
      requires 0.0 <= xDraw < 1.0
      modifies this`position
      ensures position == Scroll(old(position), downSpeed, ROW_HEIGHT, Column(xDraw) as real * COLUMN_WIDTH)
    {
      position := position.(y := position.y + downSpeed);
      if position.y >= WINDOW_HEIGHT {
        position := position.(y := position.y - (WINDOW_HEIGHT + 1.0 * ROW_HEIGHT));
        position := position.(x := (xDraw * 9.41).Floor as real * COLUMN_WIDTH);
      }
    }

    function GetPos(): Vec2
      reads this
    {
      position
    }

    function GetDim(): Vec2 {
      dimension
    }
  }
}
