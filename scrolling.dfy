/**
 * What platforms and tokens share: a draw from the random generator turned
 * into a grid index, and the downward scroll that wraps an object back above
 * the window once it passes the bottom edge.
 */
module Scrolling {
  import opened Geometry

  /** A draw `u` of the generator, in [0, 1), stretched by `span` and floored. */
  function Slot(u: real, span: real): (k: int)
    requires 0.0 <= u < 1.0 && span > 0.0
    ensures 0 <= k && k as real < span
  {
    (u * span).Floor
  }

  /** One scroll step: down by `downSpeed`; at or past the bottom edge, back up
      by the window height plus `gap`, at the new column `newX`. */
  function Scroll(p: Vec2, downSpeed: real, gap: real, newX: real): Vec2 {
    var y := p.y + downSpeed;
    if y >= WINDOW_HEIGHT then Vec2(newX, y - (WINDOW_HEIGHT + gap)) else Vec2(p.x, y)
  }

  /** An object that starts no higher than `gap` above the window, and not so
      far below it that one wrap cannot bring it back, ends up within
      [-gap, WINDOW_HEIGHT): the wrap lands it at most `gap` above the top edge. */
  lemma ScrollBand(p: Vec2, downSpeed: real, gap: real, newX: real)
    requires downSpeed >= 0.0 && gap >= 0.0
    requires -gap <= p.y && p.y + downSpeed < 2.0 * WINDOW_HEIGHT + gap
    ensures -gap <= Scroll(p, downSpeed, gap, newX).y < WINDOW_HEIGHT
    ensures p.y + downSpeed < WINDOW_HEIGHT ==> Scroll(p, downSpeed, gap, newX).x == p.x
  {
  }
}
