/**
 * The bats: a two-state machine (chase the player's lagged position, or fly
 * with the flock), a speed clamp, facing derived from the horizontal
 * velocity, and position integration.
 *
 * The square root behind every distance and the speed clamp is the caller's
 * `sqrt` parameter. The cohesion rule (which divides by the number of boids
 * in sight) and the velocity-matching rule (which divides by the number of
 * other boids) reach `Update` as the vectors `cohesion` and `alignment`.
 */
module Enemies {
  import opened Geometry
  import opened Queues

  datatype BatState = Chase | Boid

  const MAX_SPEED: real := 4.5
  /** Boids closer than this repel each other. */
  const SEPARATION_DISTANCE: real := 15.0
  /** The weight of the separation and player-attraction rules. */
  const STEER_FACTOR: real := 0.005
  /** Width of the band along each window edge in which a bat is turned back. */
  const MARGIN: real := 10.0
  const TURN: real := 0.2
  /** Per-tick growth of a flying bat's own velocity. */
  const GROWTH: real := 1.01
  /** The "release" impulse applied to the velocity when a bat leaves the chase. */
  const RELEASE_X: real := 10.74
  const RELEASE_Y: real := 10.5

  /** `s` is the square root of `r`. */
  predicate IsRootOf(s: real, r: real) {
    s >= 0.0 && s * s == r
  }

  function Distance(a: Vec2, b: Vec2, sqrt: real -> real): real {
    sqrt(a.Minus(b).Norm2())
  }

  /** The speed clamp: a velocity longer than the maximum speed is rescaled
      by its magnitude, component by component. */
  function Clamp(v: Vec2, magnitude: real): Vec2 {
    if magnitude > MAX_SPEED then Vec2((v.x / magnitude) * MAX_SPEED, (v.y / magnitude) * MAX_SPEED)
    else v
  }

  /** With a true magnitude, the clamp keeps slow velocities as they are and
      brings fast ones to exactly the maximum speed, in the same direction. */
  lemma ClampBound(v: Vec2, m: real)
    requires IsRootOf(m, v.Norm2())
    ensures Clamp(v, m).Norm2() <= MAX_SPEED * MAX_SPEED
    ensures v.Norm2() <= MAX_SPEED * MAX_SPEED ==> Clamp(v, m) == v
    ensures v.Norm2() > MAX_SPEED * MAX_SPEED ==>
              Clamp(v, m).Norm2() == MAX_SPEED * MAX_SPEED && Clamp(v, m) == v.Scale(MAX_SPEED / m)
  {
    if m > MAX_SPEED {
      var a, b := v.x / m, v.y / m;
      assert v.x == a * m && v.y == b * m;
      assert (a * a + b * b) * (m * m) == v.Norm2();
      assert a * a + b * b == 1.0;
      assert Clamp(v, m) == Vec2(a * MAX_SPEED, b * MAX_SPEED);
      assert Clamp(v, m).Norm2() == (a * a + b * b) * (MAX_SPEED * MAX_SPEED);
      assert (m - MAX_SPEED) * m > 0.0;
      assert m * m > MAX_SPEED * MAX_SPEED;
    } else {
      assert (MAX_SPEED - m) * m >= 0.0;
      assert m * m <= MAX_SPEED * MAX_SPEED;
    }
  }

  /** The repulsion sum of the separation rule, before weighting: every boid
      strictly closer than the separation distance pushes by its offset. */
  function SeparationSum(center: Vec2, boids: seq<Vec2>, sqrt: real -> real): Vec2
    decreases |boids|
  {
    if boids == [] then ZERO
    else
      var rest := SeparationSum(center, boids[..|boids| - 1], sqrt);
      var b := boids[|boids| - 1];
      if Distance(center, b, sqrt) < SEPARATION_DISTANCE then rest.Plus(center.Minus(b)) else rest
  }

  /** Boids at or beyond the separation distance, including one exactly at it, repel nothing. */
  lemma {:induction false} DistantBoidsRepelNothing(center: Vec2, boids: seq<Vec2>, sqrt: real -> real)
    requires forall i :: 0 <= i < |boids| ==> Distance(center, boids[i], sqrt) >= SEPARATION_DISTANCE
    ensures SeparationSum(center, boids, sqrt) == ZERO
    decreases |boids|
  {
    if boids != [] {
      DistantBoidsRepelNothing(center, boids[..|boids| - 1], sqrt);
    }
  }

  /** The repulsion of a population is the sum of the repulsions of its parts. */
  lemma {:induction false} SeparationSplits(center: Vec2, front: seq<Vec2>, back: seq<Vec2>, sqrt: real -> real)
    ensures SeparationSum(center, front + back, sqrt) == SeparationSum(center, front, sqrt).Plus(SeparationSum(center, back, sqrt))
    decreases |back|
  {
    if back == [] {
      assert front + back == front;
    } else {
      assert (front + back)[..|front + back| - 1] == front + back[..|back| - 1];
      SeparationSplits(center, front, back[..|back| - 1], sqrt);
    }
  }

  /** Leaving the chase releases the bat with its velocity scaled; entering it keeps the velocity. */
  function Toggle(s: BatState, v: Vec2): (r: (BatState, Vec2))
    ensures r.0 != s
    ensures s == Boid ==> r.1 == v
  {
    match s
    case Chase => (Boid, Vec2(v.x * RELEASE_X, v.y * RELEASE_Y))
    case Boid => (Chase, v)
  }

  /** Two toggles return to the starting state with the release scaling applied once. */
  lemma ToggleTwice(s: BatState, v: Vec2)
    ensures var once := Toggle(s, v);
            Toggle(once.0, once.1) == (s, Vec2(v.x * RELEASE_X, v.y * RELEASE_Y))
  {
  }

  class Enemy {
    const id: nat
    var position: Vec2
    var velocity: Vec2
    const dimension: Vec2
    /** The offset into the player's history queue this bat chases. */
    const destInd: nat
    var isFacingLeft: bool
    var state: BatState
    const visualRange: real

    /** A new bat flies with the flock, at rest, somewhere in the top part of the
        window; `xDraw`, `yDraw` are the generator's draws in [0, 1) and
        `destDraw` its draw from 0 up to the buffer size. */
    constructor (id: nat, dim: Vec2, xDraw: real, yDraw: real, destDraw: nat, visualRange: real)
      requires 0.0 <= xDraw < 1.0 && 0.0 <= yDraw < 1.0 && destDraw < POSITION_BUFFER_SIZE
      ensures position == Vec2(xDraw * 640.0, yDraw * 480.0 - 200.0)
      ensures 0.0 <= position.x < WINDOW_WIDTH && -200.0 <= position.y < WINDOW_HEIGHT - 200.0
      ensures velocity == ZERO && state == Boid && isFacingLeft
      ensures destInd == destDraw && destInd < POSITION_BUFFER_SIZE
      ensures this.id == id && dimension == dim && this.visualRange == visualRange
    {
      this.id := id;
      position := Vec2(xDraw * 640.0, yDraw * 480.0 - 200.0);
      velocity := ZERO;
      dimension := dim;
      destInd := destDraw;
      isFacingLeft := true;
      state := Boid;
      this.visualRange := visualRange;
    }

    method SetState(isChase: bool)
      modifies this`state
      ensures state == (if isChase then Chase else Boid)
      ensures velocity == old(velocity) && position == old(position)
    {
      if isChase {
        state := Chase;
      } else {
        state := Boid;
      }
    }

    method ToggleState()
      modifies this`state, this`velocity
      ensures (state, velocity) == Toggle(old(state), old(velocity))
    {
      match state
      case Chase =>
        state := Boid;
        velocity := velocity.(x := velocity.x * RELEASE_X);
        velocity := velocity.(y := velocity.y * RELEASE_Y);
      case Boid =>
        state := Chase;
    }

    /** The player's position `destInd` entries back in its history queue, or
        the origin when that entry is beyond the queue's logical length. */
    function OldestPlayerPos(buf: Queue<Vec2>): (p: Vec2)
      reads buf
      ensures buf.Valid() ==>
                p == (if destInd < POSITION_BUFFER_SIZE && destInd < buf.itemsInQ then buf.queue[destInd] else ZERO)
    {
      if destInd <= POSITION_BUFFER_SIZE - 1 then
        match buf.GetAt(destInd)
        case Some(oldest) => oldest
        case None => ZERO
      else
        ZERO
    }

    /** The chase velocity: one step of it lands exactly on the lagged player position. */
    function ChasePlayer(buf: Queue<Vec2>): (v: Vec2)
      reads this, buf
      ensures position.Plus(v) == OldestPlayerPos(buf)
    {
      OldestPlayerPos(buf).Minus(position)
    }

    /** The turn-back nudge near the window edges: inward, and only within the margin. */
    function StayWithinWindow(): (r: Vec2)
      reads this
      ensures r.x == (if position.x < MARGIN then TURN else if position.x > WINDOW_WIDTH - MARGIN then -TURN else 0.0)
      ensures r.y == (if position.y < MARGIN then TURN else if position.y > WINDOW_HEIGHT - MARGIN then -TURN else 0.0)
    {
      var fromLeft := if position.x < MARGIN then TURN else 0.0;
      var fromRight := if position.x > WINDOW_WIDTH - MARGIN then TURN else 0.0;
      var fromTop := if position.y < MARGIN then TURN else 0.0;
      var fromBottom := if position.y > WINDOW_HEIGHT - MARGIN then TURN else 0.0;
      Vec2(fromLeft - fromRight, fromTop - fromBottom)
    }

    /** The pull towards the lagged player position: a small fraction of the
        chase velocity while the player is in sight, nothing otherwise. */
    function BoidsTowardsPlayer(buf: Queue<Vec2>, sqrt: real -> real): (r: Vec2)
      reads this, buf
      ensures Distance(position, OldestPlayerPos(buf), sqrt) < visualRange ==> r == ChasePlayer(buf).Scale(STEER_FACTOR)
      ensures Distance(position, OldestPlayerPos(buf), sqrt) >= visualRange ==> r == ZERO
    {
      var playerPos := OldestPlayerPos(buf);
      if Distance(position, playerPos, sqrt) < visualRange then playerPos.Minus(position).Scale(STEER_FACTOR)
      else ZERO
    }

    /** The boids in sight: each boid within the visual range is kept as many
        times as it occurs, every other boid is dropped. */
    function BoidsInRange(boidsPos: seq<Vec2>, sqrt: real -> real): (seen: seq<Vec2>)
      reads this
      ensures |seen| <= |boidsPos|
      ensures forall p :: p in seen <==> p in boidsPos && Distance(position, p, sqrt) <= visualRange
      ensures forall p :: multiset(seen)[p] == (if Distance(position, p, sqrt) <= visualRange then multiset(boidsPos)[p] else 0)
      decreases |boidsPos|
    {
      if boidsPos == [] then []
      else
        var front := boidsPos[..|boidsPos| - 1];
        var rest := BoidsInRange(front, sqrt);
        var b := boidsPos[|boidsPos| - 1];
        assert boidsPos == front + [b];
        if Distance(position, b, sqrt) <= visualRange then rest + [b] else rest
    }

    /** The separation rule, accumulated boid by boid. */
    method Rule2(boidsPos: seq<Vec2>, sqrt: real -> real) returns (r: Vec2)
      ensures r == SeparationSum(position, boidsPos, sqrt).Scale(STEER_FACTOR)
    {
      var result := ZERO;
      for i := 0 to |boidsPos|
        invariant result == SeparationSum(position, boidsPos[..i], sqrt)
      {
        var b := boidsPos[i];
        if Distance(position, b, sqrt) < SEPARATION_DISTANCE {
          result := result.Plus(position.Minus(b));
        }
        assert boidsPos[..i + 1][..i] == boidsPos[..i];
      }
      assert boidsPos[..|boidsPos|] == boidsPos;
      r := result.Scale(STEER_FACTOR);
    }

    method LimitSpeed(sqrt: real -> real)
      modifies this`velocity
      ensures velocity == Clamp(old(velocity), sqrt(old(velocity).Norm2()))
    {
      var magnitude := sqrt(velocity.x * velocity.x + velocity.y * velocity.y);
      assert velocity.Norm2() == velocity.x * velocity.x + velocity.y * velocity.y;
      assert magnitude == sqrt(velocity.Norm2());
      if magnitude > MAX_SPEED {
        velocity := Vec2((velocity.x / magnitude) * MAX_SPEED, (velocity.y / magnitude) * MAX_SPEED);
      }
    }

    /** The velocity a tick steers to, before the clamp: the chase velocity,
        which replaces the old one, or the grown old velocity plus the flocking rules. */
    function Steered(buf: Queue<Vec2>, boidsPos: seq<Vec2>, sqrt: real -> real, cohesion: Vec2, alignment: Vec2): Vec2
      reads this, buf
    {
      match state
      case Chase => ChasePlayer(buf)
      case Boid =>
        var flock := cohesion.Plus(SeparationSum(position, boidsPos, sqrt).Scale(STEER_FACTOR)).Plus(alignment)
                       .Plus(StayWithinWindow()).Plus(BoidsTowardsPlayer(buf, sqrt));
        velocity.Scale(GROWTH).Plus(flock)
    }

    /** The steering step of a tick. */
    method Steer(buf: Queue<Vec2>, boidsPos: seq<Vec2>, sqrt: real -> real, cohesion: Vec2, alignment: Vec2)
      returns (v: Vec2)
      ensures v == Steered(buf, boidsPos, sqrt, cohesion, alignment)
    {
      match state
      case Chase =>
        v := ChasePlayer(buf);
      case Boid =>
        var separation := Rule2(boidsPos, sqrt);
        var flock := cohesion.Plus(separation).Plus(alignment).Plus(StayWithinWindow()).Plus(BoidsTowardsPlayer(buf, sqrt));
        v := velocity.Scale(GROWTH).Plus(flock);
    }

    /** One tick: steer, clamp the speed, face the way the bat moves, move. */
    method Update(buf: Queue<Vec2>, boidsPos: seq<Vec2>, sqrt: real -> real, cohesion: Vec2, alignment: Vec2)
      modifies this
      ensures state == old(state)
      ensures var steered := old(Steered(buf, boidsPos, sqrt, cohesion, alignment));
              && velocity == Clamp(steered, sqrt(steered.Norm2()))
              && (IsRootOf(sqrt(steered.Norm2()), steered.Norm2()) ==> velocity.Norm2() <= MAX_SPEED * MAX_SPEED)
              && (old(state) == Chase ==> steered == old(OldestPlayerPos(buf).Minus(position)))
      ensures isFacingLeft <==> velocity.x < 0.0
      ensures position == old(position).Plus(velocity)
    {
      velocity := Steer(buf, boidsPos, sqrt, cohesion, alignment);
      ghost var steered := velocity;
      LimitSpeed(sqrt);
      if IsRootOf(sqrt(steered.Norm2()), steered.Norm2()) {
        ClampBound(steered, sqrt(steered.Norm2()));
      }
      if velocity.x < 0.0 {
        isFacingLeft := true;
      } else {
        isFacingLeft := false;
      }
      position := position.Plus(velocity);
    }
  }

  /** A bat whose own position is among the boids, with a non-negative range
      and a root that maps zero to zero, always sees at least itself. */
  lemma SeesItself(e: Enemy, boidsPos: seq<Vec2>, sqrt: real -> real)
    requires e.position in boidsPos && e.visualRange >= 0.0 && sqrt(0.0) == 0.0
    ensures e.BoidsInRange(boidsPos, sqrt) != []
  {
    var p := e.position;
    assert p.Minus(p) == ZERO;
    assert Distance(p, p, sqrt) == 0.0;
    assert p in e.BoidsInRange(boidsPos, sqrt);
  }
}
