/**
 * The swept-axis overlap test that the player runs against every platform,
 * enemy and token. Each axis is tested separately: the X test projects the
 * actor by its horizontal velocity only, the Y test by its vertical velocity
 * only. Four separation tests are tried in turn; the target is hit only when
 * none of them holds, so touching edges are not a hit.
 */
module Collision {
  import opened Geometry

  /** The X-axis test: projected x range against the target, current y range against it. */
  predicate HitX(pos: Vec2, vel: Vec2, dim: Vec2, t: Rect) {
    var futX := pos.x + vel.x;
    if futX >= t.pos.x + t.dim.x then false
    else if futX + dim.x <= t.pos.x then false
    else if pos.y >= t.pos.y + t.dim.y then false
    else if pos.y + dim.y <= t.pos.y then false
    else true
  }

  /** The Y-axis test: current x range against the target, projected y range against it. */
  predicate HitY(pos: Vec2, vel: Vec2, dim: Vec2, t: Rect) {
    var futY := pos.y + vel.y;
    if pos.x >= t.pos.x + t.dim.x then false
    else if pos.x + dim.x <= t.pos.x then false
    else if futY >= t.pos.y + t.dim.y then false
    else if futY + dim.y <= t.pos.y then false
    else true
  }

  /** `p` lies strictly inside `r`. */
  predicate Inside(p: Vec2, r: Rect) {
    r.pos.x < p.x < r.pos.x + r.dim.x && r.pos.y < p.y < r.pos.y + r.dim.y
  }

  /** Two rectangles share an interior point. */
  ghost predicate Meet(a: Rect, b: Rect) {
    exists p :: Inside(p, a) && Inside(p, b)
  }

  /** Two open intervals of positive length share a point iff each starts before the other ends. */
  lemma {:induction false} IntervalsMeet(a0: real, a1: real, b0: real, b1: real) returns (m: real)
    requires a0 < a1 && b0 < b1 && a0 < b1 && b0 < a1
    ensures a0 < m < a1 && b0 < m < b1
  {
    var lo := if a0 < b0 then b0 else a0;
    var hi := if a1 < b1 then a1 else b1;
    m := (lo + hi) / 2.0;
  }

  /** For rectangles of positive size, the X test hits exactly when the box
      shifted by the horizontal velocity shares an interior point with the target. */
  lemma {:induction false} HitXMeansMeet(pos: Vec2, vel: Vec2, dim: Vec2, t: Rect)
    requires dim.x > 0.0 && dim.y > 0.0 && t.dim.x > 0.0 && t.dim.y > 0.0
    ensures HitX(pos, vel, dim, t) <==> Meet(Rect(Vec2(pos.x + vel.x, pos.y), dim), t)
  {
    var a := Rect(Vec2(pos.x + vel.x, pos.y), dim);
    if HitX(pos, vel, dim, t) {
      var mx := IntervalsMeet(a.pos.x, a.pos.x + dim.x, t.pos.x, t.pos.x + t.dim.x);
      var my := IntervalsMeet(a.pos.y, a.pos.y + dim.y, t.pos.y, t.pos.y + t.dim.y);
      assert Inside(Vec2(mx, my), a) && Inside(Vec2(mx, my), t);
    }
    if Meet(a, t) {
      var p :| Inside(p, a) && Inside(p, t);
    }
  }

  /** The same for the Y test, with the box shifted by the vertical velocity. */
  lemma {:induction false} HitYMeansMeet(pos: Vec2, vel: Vec2, dim: Vec2, t: Rect)
    requires dim.x > 0.0 && dim.y > 0.0 && t.dim.x > 0.0 && t.dim.y > 0.0
    ensures HitY(pos, vel, dim, t) <==> Meet(Rect(Vec2(pos.x, pos.y + vel.y), dim), t)
  {
    var a := Rect(Vec2(pos.x, pos.y + vel.y), dim);
    if HitY(pos, vel, dim, t) {
      var mx := IntervalsMeet(a.pos.x, a.pos.x + dim.x, t.pos.x, t.pos.x + t.dim.x);
      var my := IntervalsMeet(a.pos.y, a.pos.y + dim.y, t.pos.y, t.pos.y + t.dim.y);
      assert Inside(Vec2(mx, my), a) && Inside(Vec2(mx, my), t);
    }
    if Meet(a, t) {
      var p :| Inside(p, a) && Inside(p, t);
    }
  }
}
