/**
 * The player controller: one tick applies gravity, damping and the keyboard
 * intents, runs the collision passes against platforms, enemies and tokens
 * (in that order), records the position in the history queue and integrates
 * the position.
 *
 * Each collision pass is specified by a fold of a per-target response over
 * the targets; the `Player` methods that loop over the targets are proved
 * against those folds.
 */
module Players {
  import opened Geometry
  import opened Queues
  import opened Collision

  /** The part of the player's state that a tick rewrites. */
  datatype Body = Body(
    position: Vec2,
    velocity: Vec2,
    health: real,
    score: nat,
    isFacingLeft: bool,
    isJumping: bool,
    isWallJumping: bool,
    collision: bool)

  /** The keyboard as one tick sees it: `left`, `right` and `down` are keys held,
      `jump` and `restart` keys pressed this tick. */
  datatype Intents = Intents(left: bool, right: bool, jump: bool, down: bool, restart: bool)

  /** Which of the three response policies a collision pass applies. */
  datatype Policy = PlatformPolicy | EnemyPolicy | TokenPolicy

  const MAX_HEALTH: real := 100.0
  /** Health lost per tick below the floor. */
  const FLOOR_PENALTY: real := 2.5
  /** Health lost per overlapping axis against an enemy. */
  const ENEMY_COST: real := 0.1
  /** Health gained from a token. */
  const TOKEN_REWARD: real := 10.0

  /** Health as the code keeps it: deductions only happen while health is
      positive, so it can dip below zero by less than one deduction, never more. */
  predicate HealthInRange(h: real) {
    -FLOOR_PENALTY < h <= MAX_HEALTH
  }

  /** Landing on or bumping into a platform. */
  function PlatformResponse(b: Body, dim: Vec2, t: Rect): (r: Body)
    ensures r.health == b.health && r.score == b.score && r.isFacingLeft == b.isFacingLeft
    ensures r.position.x == b.position.x
    ensures HitX(b.position, b.velocity, dim, t) ==> r.velocity.x == 0.0
    ensures !HitX(b.position, b.velocity, dim, t) ==> r.velocity.x == b.velocity.x
    ensures HitX(b.position, b.velocity, dim, t) && !b.isWallJumping && !HitY(b.position, b.velocity, dim, t) ==> r.isWallJumping && !r.isJumping
    ensures HitY(b.position, b.velocity, dim, t) ==> r.velocity.y == 0.0 && r.collision
    ensures !HitY(b.position, b.velocity, dim, t) ==>
              r.velocity.y == b.velocity.y && r.position == b.position && r.collision == b.collision
    ensures !HitY(b.position, b.velocity, dim, t) ==>
              (r.isJumping, r.isWallJumping) ==
              (if HitX(b.position, b.velocity, dim, t) && !b.isWallJumping then (false, true) else (b.isJumping, b.isWallJumping))
    ensures HitY(b.position, b.velocity, dim, t) && b.position.y > t.pos.y ==> r.isJumping && r.position.y == b.position.y
    ensures HitY(b.position, b.velocity, dim, t) && b.position.y > t.pos.y ==>
              r.isWallJumping == (b.isWallJumping || HitX(b.position, b.velocity, dim, t))
    ensures HitY(b.position, b.velocity, dim, t) && b.position.y <= t.pos.y ==> !r.isJumping && !r.isWallJumping && r.position.y == b.position.y - 0.1
    ensures !HitX(b.position, b.velocity, dim, t) && !HitY(b.position, b.velocity, dim, t) ==> r == b
  {
    var bx :=
      if !HitX(b.position, b.velocity, dim, t) then b
      else if b.isWallJumping then b.(velocity := b.velocity.(x := 0.0))
      else b.(velocity := b.velocity.(x := 0.0), isWallJumping := true, isJumping := false);
    if !HitY(bx.position, bx.velocity, dim, t) then bx
    else
      var landed := bx.(velocity := bx.velocity.(y := 0.0), collision := true);
      if landed.position.y > t.pos.y then landed.(isJumping := true)
      else landed.(isJumping := false, position := landed.position.(y := landed.position.y - 0.1), isWallJumping := false)
  }

  /** Touching a bat costs health once per overlapping axis, while health is positive. */
  function EnemyResponse(b: Body, dim: Vec2, t: Rect): (r: Body)
    ensures r == b.(health := r.health)
    ensures b.health - 2.0 * ENEMY_COST <= r.health <= b.health
    ensures !HitX(b.position, b.velocity, dim, t) && !HitY(b.position, b.velocity, dim, t) ==> r == b
    ensures HitX(b.position, b.velocity, dim, t) && HitY(b.position, b.velocity, dim, t) && b.health > ENEMY_COST ==> r.health == b.health - 2.0 * ENEMY_COST
    ensures r.health == b.health || r.health > -ENEMY_COST
    ensures HitX(b.position, b.velocity, dim, t) != HitY(b.position, b.velocity, dim, t) && b.health > 0.0 ==>
              r.health == b.health - ENEMY_COST
    ensures b.health <= 0.0 ==> r == b
    ensures HitX(b.position, b.velocity, dim, t) && HitY(b.position, b.velocity, dim, t) && 0.0 < b.health <= ENEMY_COST ==>
              r.health == b.health - ENEMY_COST
  {
    var bx := if HitX(b.position, b.velocity, dim, t) && b.health > 0.0 then b.(health := b.health - ENEMY_COST) else b;
    if HitY(bx.position, bx.velocity, dim, t) && bx.health > 0.0 then bx.(health := bx.health - ENEMY_COST) else bx
  }

  /** A token hit on either axis rewards health and one point, then health is capped. */
  function TokenResponse(b: Body, dim: Vec2, t: Rect): (r: Body)
    ensures r == b.(health := r.health, score := r.score)
    ensures !HitX(b.position, b.velocity, dim, t) && !HitY(b.position, b.velocity, dim, t) ==> r == b
    ensures (HitX(b.position, b.velocity, dim, t) || HitY(b.position, b.velocity, dim, t)) && b.health > 0.0 ==>
              (r.score == b.score + 1 &&
               r.health == (if b.health + TOKEN_REWARD > MAX_HEALTH then MAX_HEALTH else b.health + TOKEN_REWARD))
    ensures b.health <= 0.0 ==> r == b
    ensures (HitX(b.position, b.velocity, dim, t) || HitY(b.position, b.velocity, dim, t)) ==> r.health <= MAX_HEALTH
  {
    var hit := HitX(b.position, b.velocity, dim, t) || HitY(b.position, b.velocity, dim, t);
    if !hit then b
    else
      var rewarded := if b.health > 0.0 then b.(health := b.health + TOKEN_REWARD, score := b.score + 1) else b;
      if rewarded.health > MAX_HEALTH then rewarded.(health := MAX_HEALTH) else rewarded
  }

  function Respond(policy: Policy, b: Body, dim: Vec2, t: Rect): Body {
    match policy
    case PlatformPolicy => PlatformResponse(b, dim, t)
    case EnemyPolicy => EnemyResponse(b, dim, t)
    case TokenPolicy => TokenResponse(b, dim, t)
  }

  /** One collision pass: the targets in order, each seeing the state the previous one left. */
  function Pass(policy: Policy, b: Body, dim: Vec2, ts: seq<Rect>): Body
    decreases |ts|
  {
    if ts == [] then b
    else Respond(policy, Pass(policy, b, dim, ts[..|ts| - 1]), dim, ts[|ts| - 1])
  }

  /** The platform pass never touches health, score or facing. */
  lemma {:induction false} PlatformPassKeepsScore(b: Body, dim: Vec2, ts: seq<Rect>)
    ensures var r := Pass(PlatformPolicy, b, dim, ts);
            r.health == b.health && r.score == b.score && r.isFacingLeft == b.isFacingLeft
    decreases |ts|
  {
    if ts != [] {
      PlatformPassKeepsScore(b, dim, ts[..|ts| - 1]);
    }
  }

  /** The enemy pass only lowers health, by at most two deductions per enemy,
      and never pushes it below the floor band; nothing else changes. */
  lemma {:induction false} EnemyPassCost(b: Body, dim: Vec2, ts: seq<Rect>)
    ensures var r := Pass(EnemyPolicy, b, dim, ts);
            && r == b.(health := r.health)
            && b.health - 2.0 * ENEMY_COST * |ts| as real <= r.health <= b.health
            && (HealthInRange(b.health) ==> HealthInRange(r.health))
    decreases |ts|
  {
    if ts != [] {
      EnemyPassCost(b, dim, ts[..|ts| - 1]);
    }
  }

  /** The token pass raises the score by at most one per token, never lowers
      health that started within range, and keeps it within range. */
  lemma {:induction false} TokenPassReward(b: Body, dim: Vec2, ts: seq<Rect>)
    ensures var r := Pass(TokenPolicy, b, dim, ts);
            && r == b.(health := r.health, score := r.score)
            && b.score <= r.score <= b.score + |ts|
            && (b.health <= MAX_HEALTH ==> b.health <= r.health <= MAX_HEALTH)
    decreases |ts|
  {
    if ts != [] {
      TokenPassReward(b, dim, ts[..|ts| - 1]);
    }
  }

  /** Gravity, or the health penalty once below the floor; then horizontal
      damping and the stop at the top of the window. */
  function Fall(b: Body, dim: Vec2): (r: Body)
    ensures r.position == b.position && r.score == b.score
    ensures r.isJumping == b.isJumping && r.isWallJumping == b.isWallJumping
    ensures r.isFacingLeft == b.isFacingLeft && r.collision == b.collision
    ensures r.velocity.x == b.velocity.x * 0.8
    ensures var vy := b.velocity.y + (if b.position.y < WINDOW_HEIGHT + dim.y then 0.75 else 0.0);
            r.velocity.y == (if b.position.y + vy < 0.0 then 0.0 else vy)
    ensures r.health == (if b.position.y >= WINDOW_HEIGHT + dim.y && b.health > 0.0 then b.health - FLOOR_PENALTY else b.health)
    ensures b.health - FLOOR_PENALTY <= r.health <= b.health
    ensures HealthInRange(b.health) ==> HealthInRange(r.health)
    ensures r.velocity.y == 0.0 || r.position.y + r.velocity.y >= 0.0
  {
    var fallen :=
      if b.position.y < WINDOW_HEIGHT + dim.y then b.(velocity := b.velocity.(y := b.velocity.y + 0.75))
      else if b.health > 0.0 then b.(health := b.health - FLOOR_PENALTY)
      else b;
    var damped := fallen.(velocity := fallen.velocity.(x := fallen.velocity.x * 0.8));
    if damped.position.y + damped.velocity.y < 0.0 then damped.(velocity := damped.velocity.(y := 0.0)) else damped
  }

  /** The movement intents: left and right shift the horizontal velocity and set
      the facing (right wins when both are held), a jump is taken only when not
      already jumping, and down adds a small downward push. */
  function Steer(b: Body, moveSpeed: real, input: Intents): (r: Body)
    ensures r.position == b.position && r.health == b.health && r.score == b.score && r.collision == b.collision
    ensures r.isJumping == (b.isJumping || input.jump) && r.isWallJumping == b.isWallJumping
    ensures r.velocity.y == b.velocity.y - (if !b.isJumping && input.jump then 15.0 else 0.0) + (if input.down then 0.4 else 0.0)
    ensures r.isFacingLeft == (if input.right then false else if input.left then true else b.isFacingLeft)
    ensures r.velocity.x == b.velocity.x + (if input.right then moveSpeed else 0.0) - (if input.left then moveSpeed else 0.0)
  {
    var leftward :=
      if input.left then b.(velocity := b.velocity.(x := b.velocity.x - moveSpeed), isFacingLeft := true)
      else b;
    var rightward :=
      if input.right then leftward.(velocity := leftward.velocity.(x := leftward.velocity.x + moveSpeed), isFacingLeft := false)
      else leftward;
    var jumped :=
      if !rightward.isJumping && input.jump then rightward.(velocity := rightward.velocity.(y := rightward.velocity.y - 15.0), isJumping := true)
      else rightward;
    if input.down then jumped.(velocity := jumped.velocity.(y := jumped.velocity.y + 0.4)) else jumped
  }

  /** Holding the jump key does not jump again: once the jump flag is set,
      a second step with the same intents adds only the down push vertically. */
  lemma JumpTakenOnce(b: Body, moveSpeed: real, input: Intents)
    ensures var once := Steer(b, moveSpeed, input);
            Steer(once, moveSpeed, input).velocity.y == once.velocity.y + (if input.down then 0.4 else 0.0)
  {
  }

  /** Holding left and right together leaves the horizontal velocity as it
      was and faces the player right. */
  lemma OpposingKeysCancel(b: Body, moveSpeed: real, jump: bool, down: bool, restart: bool)
    ensures var r := Steer(b, moveSpeed, Intents(true, true, jump, down, restart));
            r.velocity.x == b.velocity.x && !r.isFacingLeft
  {
  }

  /** `Fall` applied on its own `n` times in a row (no steering, collisions or
      position integration in between, which no tick does) damps the horizontal
      velocity geometrically, keeps the position and, above the floor
      threshold, keeps health. */
  lemma {:induction false} FallsDamp(b: Body, dim: Vec2, n: nat)
    ensures var r := Falls(b, dim, n);
            r.position == b.position && r.velocity.x == b.velocity.x * Power(0.8, n)
    ensures b.position.y < WINDOW_HEIGHT + dim.y ==> Falls(b, dim, n).health == b.health
    decreases n
  {
    if n > 0 {
      FallsDamp(b, dim, n - 1);
    }
  }

  function Power(x: real, n: nat): real
    decreases n
  {
    if n == 0 then 1.0 else Power(x, n - 1) * x
  }

  /** `Fall` iterated `n` times by itself. */
  function Falls(b: Body, dim: Vec2, n: nat): Body
    decreases n
  {
    if n == 0 then b else Fall(Falls(b, dim, n - 1), dim)
  }

  /** The restart intent: full health and back to the spawn point; score and
      velocity are kept. */
  function Respawn(b: Body, spawn: Vec2, input: Intents): (r: Body)
    ensures input.restart ==> r == b.(health := MAX_HEALTH, position := spawn)
    ensures !input.restart ==> r == b
  {
    if input.restart then b.(health := MAX_HEALTH, position := spawn) else b
  }

  /** Everything the controller does before the collision passes. */
  function Prelude(b: Body, dim: Vec2, spawn: Vec2, moveSpeed: real, input: Intents): (r: Body)
    ensures r.score == b.score && r.collision == b.collision
    ensures r.isJumping == (b.isJumping || input.jump)
    ensures input.restart ==> r.health == MAX_HEALTH && r.position == spawn
    ensures !input.restart ==> r.position == b.position && b.health - FLOOR_PENALTY <= r.health <= b.health
    ensures HealthInRange(b.health) ==> HealthInRange(r.health)
  {
    Respawn(Steer(Fall(b, dim), moveSpeed, input), spawn, input)
  }

  /** The state after the three collision passes: the position recorded in the history queue. */
  function AfterCollisions(b: Body, dim: Vec2, spawn: Vec2, moveSpeed: real, input: Intents,
                           platforms: seq<Rect>, enemies: seq<Rect>, tokens: seq<Rect>): Body
  {
    var prepared := Prelude(b, dim, spawn, moveSpeed, input);
    Pass(TokenPolicy, Pass(EnemyPolicy, Pass(PlatformPolicy, prepared, dim, platforms), dim, enemies), dim, tokens)
  }

  /** One whole tick of the controller. */
  function Tick(b: Body, dim: Vec2, spawn: Vec2, moveSpeed: real, input: Intents,
                platforms: seq<Rect>, enemies: seq<Rect>, tokens: seq<Rect>): Body
  {
    var c := AfterCollisions(b, dim, spawn, moveSpeed, input, platforms, enemies, tokens);
    c.(position := c.position.Plus(c.velocity))
  }

  /** The score never decreases, and a tick adds at most one point per token. */
  lemma TickScore(b: Body, dim: Vec2, spawn: Vec2, moveSpeed: real, input: Intents,
                  platforms: seq<Rect>, enemies: seq<Rect>, tokens: seq<Rect>)
    ensures var r := Tick(b, dim, spawn, moveSpeed, input, platforms, enemies, tokens);
            b.score <= r.score <= b.score + |tokens|
  {
    var p := Prelude(b, dim, spawn, moveSpeed, input);
    PlatformPassKeepsScore(p, dim, platforms);
    var q := Pass(PlatformPolicy, p, dim, platforms);
    EnemyPassCost(q, dim, enemies);
    TokenPassReward(Pass(EnemyPolicy, q, dim, enemies), dim, tokens);
  }

  /** Health stays within (-2.5, 100] across a tick. */
  lemma TickHealth(b: Body, dim: Vec2, spawn: Vec2, moveSpeed: real, input: Intents,
                   platforms: seq<Rect>, enemies: seq<Rect>, tokens: seq<Rect>)
    requires HealthInRange(b.health)
    ensures HealthInRange(Tick(b, dim, spawn, moveSpeed, input, platforms, enemies, tokens).health)
  {
    var p := Prelude(b, dim, spawn, moveSpeed, input);
    PlatformPassKeepsScore(p, dim, platforms);
    var q := Pass(PlatformPolicy, p, dim, platforms);
    EnemyPassCost(q, dim, enemies);
    var e := Pass(EnemyPolicy, q, dim, enemies);
    TokenPassReward(e, dim, tokens);
  }

  class Player {
    var position: Vec2
    const spawnPos: Vec2
    const dimension: Vec2
    var velocity: Vec2
    const posBuf: Queue<Vec2>
    var health: real
    var isFacingLeft: bool
    var isJumping: bool
    var isWallJumping: bool
    var collision: bool
    const moveSpeed: real
    var score: nat

    /** The history queue is consistent and stays one short of its capacity,
        and health is within the band the controller keeps. */
    ghost predicate Valid()
      reads this, posBuf
    {
      posBuf.Valid() && posBuf.itemsInQ <= POSITION_BUFFER_SIZE - 1 && HealthInRange(health)
    }

    function Snapshot(): Body
      reads this
    {
      Body(position, velocity, health, score, isFacingLeft, isJumping, isWallJumping, collision)
    }

    /** A new player stands at its spawn point, with full health and no score; its
        history queue is pre-filled with the spawn point but logically empty. */
    constructor (startPos: Vec2)
      ensures Valid() && fresh(posBuf)
      ensures position == startPos && spawnPos == startPos
      ensures velocity == ZERO && dimension == Vec2(10.0, 10.0) && moveSpeed == 1.2
      ensures health == MAX_HEALTH && score == 0
      ensures !isFacingLeft && !isJumping && !isWallJumping && !collision
      ensures posBuf.itemsInQ == 0 && |posBuf.queue| == POSITION_BUFFER_SIZE
      ensures forall k :: 0 <= k < |posBuf.queue| ==> posBuf.queue[k] == startPos
    {
      var q := new Queue<Vec2>(POSITION_BUFFER_SIZE);
      q.FillWith(startPos);
      position := startPos;
      spawnPos := startPos;
      dimension := Vec2(10.0, 10.0);
      velocity := ZERO;
      posBuf := q;
      health := MAX_HEALTH;
      isFacingLeft := false;
      isJumping := false;
      isWallJumping := false;
      collision := false;
      moveSpeed := 1.2;
      score := 0;
    }

    /** The position at logical offset 4 of the history queue, or the origin
        while the queue holds no more than four entries. */
    function OldestPlayerPos(): (p: Vec2)
      reads this, posBuf
      ensures posBuf.Valid() ==> p == (if 4 < posBuf.itemsInQ then posBuf.queue[4] else ZERO)
    {
      match posBuf.GetAt(4)
      case Some(oldest) => oldest
      case None => ZERO
    }

    method PlatformCollisions(platforms: seq<Rect>)
      modifies this
      ensures Snapshot() == Pass(PlatformPolicy, old(Snapshot()), dimension, platforms)
    {
      for i := 0 to |platforms|
        invariant Snapshot() == Pass(PlatformPolicy, old(Snapshot()), dimension, platforms[..i])
      {
        var t := platforms[i];
        if HitX(position, velocity, dimension, t) {
          velocity := velocity.(x := 0.0);
          if !isWallJumping {
            isWallJumping := true;
            isJumping := false;
          }
        }
        if HitY(position, velocity, dimension, t) {
          velocity := velocity.(y := 0.0);
          collision := true;
          if position.y > t.pos.y {
            isJumping := true;
          } else {
            isJumping := false;
            position := position.(y := position.y - 0.1);
            isWallJumping := false;
          }
        }
        assert platforms[..i + 1][..i] == platforms[..i];
      }
      assert platforms[..|platforms|] == platforms;
    }

    method EnemyCollisions(enemies: seq<Rect>)
      modifies this
      ensures Snapshot() == Pass(EnemyPolicy, old(Snapshot()), dimension, enemies)
    {
      for i := 0 to |enemies|
        invariant Snapshot() == Pass(EnemyPolicy, old(Snapshot()), dimension, enemies[..i])
      {
        var t := enemies[i];
        if HitX(position, velocity, dimension, t) {
          if health > 0.0 {
            health := health - ENEMY_COST;
          }
        }
        if HitY(position, velocity, dimension, t) {
          if health > 0.0 {
            health := health - ENEMY_COST;
          }
        }
        assert enemies[..i + 1][..i] == enemies[..i];
      }
      assert enemies[..|enemies|] == enemies;
    }

    method TokenCollisions(tokens: seq<Rect>)
      modifies this
      ensures Snapshot() == Pass(TokenPolicy, old(Snapshot()), dimension, tokens)
    {
      for i := 0 to |tokens|
        invariant Snapshot() == Pass(TokenPolicy, old(Snapshot()), dimension, tokens[..i])
      {
        var t := tokens[i];
        var hitX := HitX(position, velocity, dimension, t);
        var hitY := HitY(position, velocity, dimension, t);
        if hitX || hitY {
          if health > 0.0 {
            health := health + TOKEN_REWARD;
            score := score + 1;
          }
          if health > MAX_HEALTH {
            health := MAX_HEALTH;
          }
        }
        assert tokens[..i + 1][..i] == tokens[..i];
      }
      assert tokens[..|tokens|] == tokens;
    }

    /** Gravity or the floor penalty, damping and the ceiling stop. */
    method ApplyGravity()
      modifies this
      ensures Snapshot() == Fall(old(Snapshot()), dimension)
    {
      if position.y < WINDOW_HEIGHT + dimension.y {
        velocity := velocity.(y := velocity.y + 0.75);
      } else {
        if health > 0.0 {
          health := health - FLOOR_PENALTY;
        }
      }
      velocity := velocity.(x := velocity.x * 0.8);

      if position.y + velocity.y < 0.0 {
        velocity := velocity.(y := 0.0);
      }
    }

    /** The movement, jump and down intents. */
    method ApplyMovement(input: Intents)
      modifies this
      ensures Snapshot() == Steer(old(Snapshot()), moveSpeed, input)
    {
      if input.left {
        velocity := velocity.(x := velocity.x - moveSpeed);
        isFacingLeft := true;
      }
      if input.right {
        velocity := velocity.(x := velocity.x + moveSpeed);
        isFacingLeft := false;
      }
      if !isJumping && input.jump {
        velocity := velocity.(y := velocity.y - 15.0);
        isJumping := true;
      }
      if input.down {
        velocity := velocity.(y := velocity.y + 0.4);
      }
    }

    /** Gravity, damping, the ceiling stop, the keyboard intents and the restart. */
    method ApplyIntents(input: Intents)
      modifies this
      ensures Snapshot() == Prelude(old(Snapshot()), dimension, spawnPos, moveSpeed, input)
    {
      ApplyGravity();
      ApplyMovement(input);
      if input.restart {
        health := MAX_HEALTH;
        position := spawnPos;
      }
    }

    /** One tick. The history queue receives the position reached after the
        collision passes, and loses its front entry once it would exceed
        capacity minus one. */
    method Update(platforms: seq<Rect>, enemies: seq<Rect>, tokens: seq<Rect>, input: Intents)
      requires Valid()
      modifies this, posBuf
      ensures Valid()
      ensures Snapshot() == Tick(old(Snapshot()), dimension, spawnPos, moveSpeed, input, platforms, enemies, tokens)
      ensures old(score) <= score <= old(score) + |tokens|
      ensures var recorded := AfterCollisions(old(Snapshot()), dimension, spawnPos, moveSpeed, input, platforms, enemies, tokens).position;
              if old(posBuf.itemsInQ) + 1 > POSITION_BUFFER_SIZE - 1
              then posBuf.queue == (old(posBuf.queue) + [recorded])[1..] && posBuf.itemsInQ == old(posBuf.itemsInQ)
              else posBuf.queue == old(posBuf.queue) + [recorded] && posBuf.itemsInQ == old(posBuf.itemsInQ) + 1
    {
      ApplyIntents(input);

      PlatformCollisions(platforms);
      EnemyCollisions(enemies);
      TokenCollisions(tokens);

      posBuf.Push(position);
      if posBuf.GetItemsInQ() > POSITION_BUFFER_SIZE - 1 {
        var dropped := posBuf.Pop();
      }

      position := position.(y := position.y + velocity.y);
      position := position.(x := position.x + velocity.x);
      TickHealth(old(Snapshot()), dimension, spawnPos, moveSpeed, input, platforms, enemies, tokens);
      TickScore(old(Snapshot()), dimension, spawnPos, moveSpeed, input, platforms, enemies, tokens);
    }
  }
}
