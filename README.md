# Platformer with flocking bats: a verified model of the simulation core

The game is a small 2D platformer. The player jumps between platforms that
scroll down the window, collects tokens for health and score, and avoids
bats. A bat either chases the player's lagged position or flies with the
flock. This project models the per-tick simulation of the game in Dafny,
one module per source file:

- `Queues` (`queue.dfy`): the position-history queue. It keeps two pieces of
  bookkeeping, a backing vector and a separate logical counter `itemsInQ`,
  exactly as the source does. Reads are bounded by the counter but served from
  the vector. `FillWith` rewrites the vector and leaves the counter alone. The
  invariant is `itemsInQ <= |queue| <= capacity`. `Exact()` holds while the
  vector and the counter agree. `FilledQueueServesFiller` shows that after a
  fill, the front of the queue is filler rather than the pushed value.
- `Collision` (`collision.dfy`): the swept-axis overlap test the player runs
  against every target. For boxes of positive width and height it is proved
  equivalent to "the box, shifted along one axis by the velocity, shares an
  interior point with the target". Touching edges are therefore no hit.
- `Players` (`player.dfy`): the player controller, a class whose methods
  mutate its fields.
  - Pure functions on a `Body` snapshot specify it: `Fall`, `Steer`,
    `Respawn`, the three per-target responses, and `Pass`, a left fold of one
    response over the targets.
  - Each looping method (`PlatformCollisions`, `EnemyCollisions`,
    `TokenCollisions`) is proved against its fold. `Update` is proved against
    `Tick`.
  - Lemmas about the folds give score monotonicity and the health band across
    a tick. `Player.Update` states both. `Player.Valid` carries the health band
    and the queue bound `itemsInQ <= 99`.
- `Enemies` (`enemy.dfy`): the bat. It has a Chase/Boid state machine with a
  velocity "release" when leaving the chase. It also has the lagged-target
  lookup with its zero fallback, the chase velocity, the edge nudge, the
  separation rule, the speed clamp, facing and position integration.
- `Scrolling`, `Platforms`, `Tokens` (`scrolling.dfy`, `platform.dfy`,
  `token.dfy`): objects scroll down by a given speed. Once at or past the
  bottom edge, they wrap up by the window height plus one grid row and take a
  new column on a fixed grid.

Conventions:

- `f32` is modelled as `real`.
- Each `rng.gen::<f32>()` draw is a `real` parameter in [0, 1), floored
  exactly as the source floors it. `gen_range(0..100)` is a `nat` parameter
  below 100.
- Keyboard state is the `Intents` datatype.
- `f32::sqrt` is a parameter `sqrt: real -> real`. Lemmas that need a true
  root assume only `IsRootOf`.
- A target's `get_pos()`/`get_dim()` pair is passed to the player as a `Rect`.

Where the intended design and the code disagree, the model follows the
code:

- **Player health.** The intended design keeps health in [0, 100], clamped at
  both ends. The code only clamps the top. It deducts 0.1 (enemy)
  or 2.5 (floor) whenever health is positive, so health can end slightly below
  zero. The band the code actually keeps, and the one proved here
  (`TickHealth`, `Player.Valid`), is -2.5 < health <= 100.
- **Ceiling stop.** The intended per-tick order leaves out the ceiling
  stop. The code zeroes `velocity.y` when the next position would be above
  the window (src/player.rs:206-208), and the model does the same.

## Model

| member | source | states |
|---|---|---|
| Queues.Grown | src/queue.rs:15-18 | a push into a full backing vector strictly enlarges its capacity |
| Queues.Queue.constructor | src/queue.rs:7-13 | a new queue is logically empty with an empty backing vector of capacity `n`; the invariant and `Exact` hold |
| Queues.Queue.Push | src/queue.rs:15-18 | appends `x` at the back of the backing vector; the counter rises by exactly one; capacity never shrinks and is kept while there is room; the invariant is preserved, and so is `Exact` |
| Queues.Queue.Pop | src/queue.rs:20-23 | needs a positive counter (unsigned subtraction); returns the front backing element, leaves the rest in their order, the counter falls by one, capacity is kept, the invariant is preserved |
| Queues.Queue.GetItemsInQ | src/queue.rs:25-27 | the logical length never exceeds the backing length and equals it while the two agree |
| Queues.Queue.GetLength | src/queue.rs:29-31 | the backing length lies between the logical length and the capacity |
| Queues.Queue.GetAt | src/queue.rs:33-39 | present iff `i < itemsInQ`, and then it is backing element `i` |
| Queues.Queue.Peek | src/queue.rs:41-43 | present iff the backing vector is non-empty, whatever the counter says, and then it is the front element |
| Queues.Queue.FillWith | src/queue.rs:51-53 | every backing element becomes `v`; the length equals the (unchanged) capacity; the counter is untouched; the invariant is preserved |
| Queues.FifoOrder | src/queue.rs:15-23 | on a queue that was never filled, pushing `a` then `b` and popping twice yields `a` then `b` |
| Queues.FilledQueueServesFiller | src/queue.rs:33-53 | after `FillWith(filler)` and a push of `x`, `Peek` and `GetAt(0)` both return the filler, and the backing length is `n + 1` |
| Collision.IntervalsMeet | src/player.rs:67-75 | two open intervals that each start before the other ends share a point |
| Collision.HitXMeansMeet | src/player.rs:67-83 | the X test's four separation checks fail exactly when the box shifted by the horizontal velocity shares an interior point with the target (so touching edges are no hit) |
| Collision.HitYMeansMeet | src/player.rs:85-104 | the same for the Y test and the vertical velocity |
| Players.PlatformResponse | src/player.rs:63-106 | an X hit zeroes `velocity.x` and, when not wall-jumping, sets the wall-jump flag and clears the jump flag; a Y hit zeroes `velocity.y` and sets `collision`, then either sets the jump flag (player below the platform's top; the wall-jump flag is then set iff it was set or X hit) or clears both flags and lifts the player by 0.1; without a Y hit, `velocity.y`, position and `collision` are kept and the flags change only on an X hit while not wall-jumping; health, score and facing never change; no hit on either axis changes nothing |
| Players.EnemyResponse | src/player.rs:108-145 | only health changes, by at most 0.2; a single-axis hit with positive health costs exactly 0.1; a double-axis hit with health above 0.1 costs exactly 0.2, and with health in (0, 0.1] costs exactly 0.1 (the second axis sees non-positive health); non-positive health is never reduced; no hit changes nothing; health never goes below -0.1 through it |
| Players.TokenResponse | src/player.rs:147-193 | only health and score change; a hit on either axis with positive health gives exactly one point and health `min(h + 10, 100)`; non-positive health changes nothing; after any hit health is at most 100 |
| Players.PlatformPassKeepsScore | src/player.rs:63-106 | a whole platform pass keeps health, score and facing |
| Players.EnemyPassCost | src/player.rs:108-145 | a whole enemy pass changes only health, lowers it by at most 0.2 per enemy, and keeps it within the band (-2.5, 100] |
| Players.TokenPassReward | src/player.rs:147-193 | a whole token pass changes only health and score, adds at most one point per token, and never lowers health that starts at or below 100, nor lifts it above 100 |
| Players.Fall | src/player.rs:197-208 | above the floor threshold `velocity.y` gains 0.75, below it health loses exactly 2.5 while positive; `velocity.x` is damped by 0.8; `velocity.y` is zeroed when the next step would be above the window; position, score and all four flags are kept; health stays in band |
| Players.Steer | src/player.rs:210-228 | left and right shift `velocity.x` by the move speed and set the facing (right wins); a jump subtracts 15 from `velocity.y` only when not already jumping, down adds 0.4; the jump flag becomes set on a jump intent and is never cleared; the wall-jump flag, position, health and score are kept |
| Players.JumpTakenOnce | src/player.rs:221-228 | a second step with the jump key still pressed adds no second impulse, only the down push |
| Players.OpposingKeysCancel | src/player.rs:210-219 | holding left and right together leaves `velocity.x` unchanged and faces right |
| Players.FallsDamp | src/player.rs:197-204 | `Fall` iterated by itself `n` times (not a sequence of ticks) keeps the position and scales `velocity.x` by 0.8 to the `n`; above the floor threshold it keeps health |
| Players.Respawn | src/player.rs:230-233 | restart resets health to 100 and position to the spawn point and keeps everything else, including score; otherwise nothing changes |
| Players.Prelude | src/player.rs:197-233 | before the collision passes, score and collision are kept, health stays in band, and restart yields full health at the spawn point |
| Players.TickScore | src/player.rs:183-233 | across a tick the score never decreases and rises by at most one per token |
| Players.TickHealth | src/player.rs:195-246 | across a tick health stays within (-2.5, 100] |
| Players.Player.constructor | src/player.rs:29-49 | spawn point, zero velocity, 10x10 box, move speed 1.2, full health, no score, all flags clear; the history queue holds 100 copies of the spawn point but is logically empty |
| Players.Player.OldestPlayerPos | src/player.rs:51-61 | the queue entry at offset 4 while the logical length exceeds 4, the origin otherwise |
| Players.Player.PlatformCollisions | src/player.rs:63-106 | the loop leaves the player in the state of the platform fold over the platforms in order |
| Players.Player.EnemyCollisions | src/player.rs:108-145 | the loop leaves the player in the state of the enemy fold |
| Players.Player.TokenCollisions | src/player.rs:147-193 | the loop leaves the player in the state of the token fold |
| Players.Player.ApplyGravity | src/player.rs:197-208 | the new state is `Fall` of the old one |
| Players.Player.ApplyMovement | src/player.rs:210-228 | the new state is `Steer` of the old one |
| Players.Player.ApplyIntents | src/player.rs:197-233 | the new state is `Prelude` of the old one |
| Players.Player.Update | src/player.rs:195-249 | the new state is `Tick` of the old one; the score never decreases and rises by at most one per token; the position reached after the collision passes is pushed, and the front entry is popped once the count would exceed 99; the queue invariant, the bound `itemsInQ <= 99` and the health band are kept |
| Enemies.ClampBound | src/enemy.rs:116-123 | with a true magnitude the clamped speed is at most 4.5; velocities with squared length at most 4.5² are unchanged; faster ones are rescaled in the same direction to exactly 4.5 |
| Enemies.DistantBoidsRepelNothing | src/enemy.rs:92-103 | boids at or beyond the separation distance, including one exactly at 15, contribute nothing to the separation rule |
| Enemies.SeparationSplits | src/enemy.rs:92-103 | the separation sum over a population is the sum over its parts |
| Enemies.Toggle | src/enemy.rs:195-201 | a toggle always changes the state, and entering the chase keeps the velocity |
| Enemies.ToggleTwice | src/enemy.rs:195-201 | two toggles return to the starting state with velocity scaled by (10.74, 10.5) |
| Enemies.SeesItself | src/enemy.rs:156-162 | a bat whose position is among the boids, with a non-negative visual range and a square root that maps 0 to 0, always sees at least one boid (itself), so the centroid has a non-zero divisor |
| Enemies.Enemy.constructor | src/enemy.rs:33-50 | a new bat starts in Boid state, at rest, facing left, at (640u, 480u' - 200) for draws u, u' in [0, 1), with `destInd` below the buffer size |
| Enemies.Enemy.SetState | src/enemy.rs:60-66 | yields Chase for `true` and Boid for `false` (hence idempotent), leaving velocity and position untouched |
| Enemies.Enemy.ToggleState | src/enemy.rs:195-201 | the new state and velocity are `Toggle` of the old ones |
| Enemies.Enemy.OldestPlayerPos | src/enemy.rs:68-78 | the queue entry at offset `destInd` while it is below the buffer size and the logical length, the origin otherwise |
| Enemies.Enemy.ChasePlayer | src/enemy.rs:80-82 | one step of the chase velocity lands exactly on the lagged player position |
| Enemies.Enemy.StayWithinWindow | src/enemy.rs:125-143 | each component is +0.2 within 10 of the left/top edge, -0.2 within 10 of the right/bottom edge, 0 otherwise |
| Enemies.Enemy.BoidsTowardsPlayer | src/enemy.rs:145-154 | 0.005 times the chase velocity while the lagged player position is closer than the visual range, zero otherwise |
| Enemies.Enemy.BoidsInRange | src/enemy.rs:156-162 | a boid is kept iff it is within the visual range (inclusive), as many times as it occurs in the input, so the count seen is the number of boid entries in range; the result is no longer than the input |
| Enemies.Enemy.Rule2 | src/enemy.rs:92-103 | the accumulating loop returns 0.005 times the separation sum |
| Enemies.Enemy.LimitSpeed | src/enemy.rs:116-123 | the new velocity is the clamp of the old one by its computed magnitude |
| Enemies.Enemy.Steer | src/enemy.rs:175-207 | Chase replaces the velocity with the chase velocity; Boid grows the old velocity by 1.01 and adds cohesion, separation, alignment, the edge nudge and the pull to the player |
| Enemies.Enemy.Update | src/enemy.rs:203-219 | the state is kept; the velocity is the clamped steered velocity, of speed at most 4.5 under a true root, and in Chase the steered velocity is the lagged player position minus the position; facing left holds iff the final `velocity.x < 0`; the position advances by exactly the final velocity |
| Scrolling.Slot | src/platform.rs:20-21 | a floored draw `u * span` with `u` in [0, 1) is a non-negative integer below `span` |
| Scrolling.ScrollBand | src/platform.rs:38-45 | an object starting no more than one row above the window and less than one wrap below ends within [-row, 480); without a wrap x is unchanged |
| Platforms.Column | src/platform.rs:20 | a column draw selects one of columns 0..9 |
| Platforms.Row | src/platform.rs:21 | a row draw selects one of rows 0..12 |
| Platforms.Platform.constructor | src/platform.rs:17-36 | without randomness, exactly the given position and dimension; with it, x = 68k for k in 0..9 and y = 37m + 37 for m in 0..12 |
| Platforms.Platform.Update | src/platform.rs:38-45 | y rises by the speed; once at or past 480 it also falls back by 517 and x becomes 68k for the drawn column k; otherwise x is unchanged |
| Tokens.Column | src/token.rs:21 | a column draw selects one of columns 0..29 |
| Tokens.Row | src/token.rs:20 | a row draw selects one of rows 0..42 |
| Tokens.Token.constructor | src/token.rs:17-36 | without randomness, exactly the given position and dimension; with it, y = 15m for m in 0..42 (drawn first) and x = 16k for k in 0..29 |
| Tokens.Token.Update | src/token.rs:38-45 | y rises by the speed; once at or past 480 it also falls back by 495 and x becomes 16k for the drawn column k; otherwise x is unchanged |

## Left out

- Rendering and assets: every `draw` method, textures, fonts, `restart_text`, the health bar, and `GameState::new`/`main` (src/main.rs). They produce no simulation state.
- The tetra `Context` and keyboard polling: the `Intents` parameter stands in for them.
- The `main.rs` tick loop and its key logging. Its calls do not match the signatures they drive, so `Enemy.Update` takes the player's history queue and the boids' positions as explicit parameters.
- The player's enemy pass calls `enemy.get_dim()`, which the enemy type does not define. The model uses the enemy's `dimension` field as the stand-in for that call when it builds the enemy's `Rect`.
- Floating point: `f32` rounding, infinities and NaN. Arithmetic is exact over `real`.
- `f32::sqrt` is a parameter; the properties that need a true root require `IsRootOf`.
- Enemies.Enemy.Update: the cohesion rule (`calculate_center`, `rule1`) and the velocity-matching rule (`rule3`) divide by the number of boids seen and by one less than the number of boids. They reach `Update` as the vectors `cohesion` and `alignment`, so their own arithmetic is not modelled. In particular, the division by zero for a single bat in `rule3` is not modelled. The `boids_center` field they communicate through is dropped.
- Random number generation: each draw is a parameter in its stated range, and the generators themselves are not modelled.
- src/game_object.rs is not part of this model: nothing references it.
- The enemy `debug` flag and its commented-out output.
- `Enemy::get_pos` and `get_vel` are not modelled: they return fields that the model reads directly. `Platform::get_pos`/`get_dim` and `Token::get_pos`/`get_dim` are modelled as field reads with no contract and no row above. The player's collision passes receive the resulting rectangles as `Rect` values.
- Queue's private `empty` is not used by anything and is not modelled.
- Players.Player: `score` is a `u32` in the source and a `nat` here, so its wrap-around after 2³² tokens is not modelled; the enemy `id` (`u16`) is likewise a `nat`.
- Queues.Queue.constructor: `Vec::with_capacity(n)` promises a capacity of at least `n`; the model fixes it at exactly `n`, and the player's 100 pre-filled entries rely on that choice.
- Enemies.Enemy.BoidsInRange: the contract states membership and multiplicity, not that the kept boids stay in input order (the order does not affect the count or the sum it feeds).
- Queues.Queue.Push: `Vec` growth is modelled as doubling with a minimum of four slots. The standard library only promises amortised growth, so only "capacity never shrinks and stays put while there is room" is relied on.
