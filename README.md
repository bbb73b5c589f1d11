# Breakout core in Dafny

A model of the deterministic simulation of a browser breakout game and proofs about it. The model covers:

- **Geometry:** the circle-versus-box overlap test and the push-out resolver.
- **Entity state machines:** block, paddle, ball and power-up.
- **The world's per-tick update:** effect timers, launch, free flight, power-up pickup, paddle and block collisions, explosive and splitter side effects, end-of-tick filtering, and life-lost and win signalling.
- **Level construction:** the level table with its wrap-around lookup, and the grid-to-blocks builder.
- **The game driver:** the title / playing / paused / win / game-over state machine, lives and score bookkeeping, key edge detection, and the fixed-timestep accumulator loop.

Each source file keeps its own form in the model.

- Code that computes a value becomes datatypes and functions.
- Code that updates fields in place becomes a class.
  - `Block`, `Paddle`, `Ball`, `Powerup`, `World` and `Game` are classes whose methods assign their fields.
  - Each method is proved equal to a pure transition on a state value (`State()`, `Run()`, `Model()`).
  - The transitions carry the contracts and the lemmas.
- Each operation is defined once, as the pure function; the class method of the same source operation is the in-place code proved equal to it. For an entity method both carry the source's name (`Paddles.Paddle.ClampX` is proved equal to `Paddles.PaddleState.ClampX`). For a loop body of `World.update` the method is named `…At` and the function `…One` (`WorldObjects.World.CollectAt` is proved equal to `Worlds.CollectOne`).
- The loops of `World.update` and of `buildBlocksFromLevel` are `while` loops with invariants.
- The accumulator loop of `Game._frame` is a `while` loop with invariants.

| file | module | models |
|---|---|---|
| host.dfy | `Host` | `Math.max`/`min`/`abs`/`sign`; the host's `hypot`, `cos`, `sin` and `atan2` as an uninterpreted value with the laws the code relies on; `Math.random` as a stream; the input as a value |
| collisions.dfy | `Collisions` | src/physics/collisions.js |
| blocks.dfy | `Blocks` | src/entities/Block.js |
| paddles.dfy | `Paddles` | src/entities/Paddle.js |
| balls.dfy | `Balls` | src/entities/Ball.js |
| powerups.dfy | `Powerups` | src/entities/Powerup.js |
| levels.dfy | `LevelLoader` | src/game/LevelLoader.js |
| layout.dfy | `BlockLayout` | `buildBlocksFromLevel` of src/game/World.js |
| world_state.dfy | `Worlds` | `World.update` and its helpers as functions on values, one per phase |
| world.dfy | `WorldObjects` | the `World` class, its methods proved against `Worlds` |
| game.dfy | `Games` | src/game/Game.js |

**The world's callbacks become events.**

- `onScore`, `onWin`, `onLifeLost` and `onSfx` become the sequence of events a tick returns, in the order the source calls them.
- The game handles that sequence after the tick.
- This is equivalent to handling each one at its call: `onScore` and `onSfx` touch only the score and the sounds, and `onLifeLost` or `onWin` is always the last thing the tick does.

**`Math.random` is a stream of draws in [0, 1) with a cursor.** The world threads it through the tick in call order. The draws are the launch angle, the drop chance and the power-up kind.

**At tangent contact the overlap test and the resolver disagree; the model follows the code.**

- `circleVsAabb` and `resolveCircleAabb` do not agree at tangent contact.
- In the code, a circle that only touches the box (its centre exactly one radius from the box) passes the overlap test (`<=` at src/physics/collisions.js:10), while the resolver returns null (`overlap <= 0` at src/physics/collisions.js:41).
- `Collisions.TangentContactIsNotResolved` exhibits such an input.
- `Collisions.ResolvedImpliesOverlap` and `Collisions.StrictOverlapResolves` prove the two directions that do hold.

## Model

| member | source | states |
|---|---|---|
| Collisions.Clamp | src/physics/collisions.js:1-3 | The result lies in [a, b] whenever a ≤ b. It is v unchanged when v is already in range, a below the range, and b above it. When the bounds cross, it is a. |
| Collisions.AxisNearest | src/physics/collisions.js:6-7 | On one axis, the clamped coordinate is at least as close to v as any point of the span. |
| Collisions.ClosestIsNearest | src/physics/collisions.js:5-11 | The per-axis clamped point is the point of the box nearest the centre: no point of the box is closer. |
| Collisions.CircleVsAabbMeansNearPoint | src/physics/collisions.js:5-11 | For a box of non-negative size, `circleVsAabb` holds iff some point of the box lies within r of the centre (both directions). |
| Collisions.CircleVsAabb | src/physics/collisions.js:5-11 | A circle whose centre lies in the box always overlaps it, whatever its radius. |
| Collisions.NearestSide | src/physics/collisions.js:29-37 | The chosen side has the smallest gap. Every side earlier in the order left, right, top, bottom has a strictly larger gap, so ties go left, then right, then top, then bottom. |
| Collisions.EdgeContact | src/physics/collisions.js:34-37 | The fallback normal is a unit axis vector. The axis is x exactly for left or right, which is exactly when \|nx\| > \|ny\|. The overlap is the one given. |
| Collisions.PushOut | src/physics/collisions.js:40-47 | No contact iff radius − dist ≤ 0, and then the circle is unchanged. Otherwise the overlap is radius − dist > 0, the normal is the offset divided by dist, the circle moves by normal × overlap, and the axis is x iff \|nx\| > \|ny\|. |
| Collisions.ResolveCircleAabb | src/physics/collisions.js:20-48 | The radius never changes, and a null result leaves the circle untouched. At dist = 0 the circle does not move and the contact is the nearest side's unit normal with overlap = radius. Otherwise the result is the push-out along the offset to the clamped point. The axis is x iff \|nx\| > \|ny\|. |
| Collisions.HypotSquared | src/physics/collisions.js:25 | `Math.hypot(x, y)` is non-negative and its square is x² + y². |
| Collisions.RootOfSquare | src/physics/collisions.js:25 | A non-negative number whose square is a² is \|a\|. |
| Collisions.PushOutUnitNormal | src/physics/collisions.js:40-46 | When the push-out makes contact, the normal has length 1. The moved centre lies exactly one radius from the original closest point. |
| Collisions.MovedOneRadius | src/physics/collisions.js:42-46 | A centre moved by the unit normal times (radius − dist) from distance dist ends exactly one radius from the closest point. |
| Collisions.PushOutWithinRadius | src/physics/collisions.js:40-41 | A contact from the push-out means dist² < radius². |
| Collisions.DistSquared | src/physics/collisions.js:21-25 | The resolver's `dist` is non-negative, and its square is the squared distance the overlap test compares. |
| Collisions.ResolvedWithinRadius | src/physics/collisions.js:28-41 | A contact means dist = 0 or dist < radius. |
| Collisions.ResolvedImpliesOverlap | src/physics/collisions.js:5-48 | Whenever the resolver returns a contact, `circleVsAabb` holds on the same inputs. |
| Collisions.StrictOverlapResolves | src/physics/collisions.js:5-48 | A strict overlap (squared distance < r²) always gets a contact. |
| Collisions.TangentContactIsNotResolved | src/physics/collisions.js:10-41 | The converse fails: a circle of radius 5 at (5, −5) touching the box (0, 0, 10, 10) passes `circleVsAabb`, but the resolver returns null. This is why World.js falls back to flipping vy. |
| Collisions.ResolvePasses | tests/collision.test.js:101-107 | Zero passes leave the circle and count nothing. |
| Collisions.ResolveAll | tests/collision.test.js:102-105 | One pass over n boxes counts at most n resolutions. |
| Collisions.ScenarioFirstContact | tests/collision.test.js:81-93 | The ball of radius 8 at (182, 111) against (100, 100, 80, 22) is pushed to (188, 111) along +x with overlap 6. |
| Collisions.ScenarioSecondContact | tests/collision.test.js:82-93 | The same ball overlaps (188, 100, 80, 22). |
| Collisions.ScenarioEdgeFallback | src/physics/collisions.js:28-34 | A centre on the left edge takes the fallback left normal with overlap = radius and does not move. |
| Collisions.ScenarioTangent | src/physics/collisions.js:40-41 | A centre exactly one radius from the box returns null. |
| Collisions.ThreePassesResolveBothBlocks | tests/collision.test.js:78-117 | The ball starts overlapping both blocks, and three passes over the two make four resolutions (the test asks for at least two). |
| Blocks.BlockState.Hit | src/entities/Block.js:35-43 | Only hp and dead can change. An unbreakable block reports not destroyed and is unchanged. Any other block loses exactly 1 hp and is destroyed iff hp − 1 ≤ 0, and then it is dead. A surviving block keeps its dead flag. |
| Blocks.BlockState.Box | src/entities/Block.js:27-29 | The box is the block's own position and size. |
| Blocks.BlockState.IsBreakable | src/entities/Block.js:31-33 | Normal, strong, explosive and splitter blocks are breakable; unbreakable ones are not. |
| Blocks.NewBlock | src/entities/Block.js:13-29 | maxHp = hp, not dead; the box is (x, y, w, h); type, score, row and col are as given. |
| Blocks.HitsCount | src/entities/Block.js:37 | n hits on a breakable block take exactly n hp, and nothing but hp and dead changes. |
| Blocks.DestroyedByItsHitPoints | src/entities/Block.js:37-42 | The hit after j earlier hits destroys a breakable block iff j + 1 ≥ its hp. |
| Blocks.UnbreakableNeverChanges | src/entities/Block.js:36 | Any number of hits leave an unbreakable block as it was. |
| Blocks.Block.constructor | src/entities/Block.js:13-25 | The new block's state is `NewBlock` of its arguments. |
| Blocks.Block.Hit | src/entities/Block.js:35-43 | Updates hp and dead in place. It returns `destroyed` and the new state exactly as `BlockState.Hit` gives them. |
| Paddles.PaddleState.ClampX | src/entities/Paddle.js:54-56 | Only x changes. When width ≤ arenaWidth, 0 ≤ x ≤ arenaWidth − width afterwards. An x already in range is kept. When the paddle is wider than the arena, x is 0. |
| Paddles.PaddleState.CenterX | src/entities/Paddle.js:16-18 | The centre is as far from the left end as from the right end. |
| Paddles.PaddleState.Box | src/entities/Paddle.js:20-22 | The box is the paddle's position, width and height. |
| Paddles.PaddleState.ResetSize | src/entities/Paddle.js:24-26 | The width becomes baseWidth and nothing else changes. |
| Paddles.PaddleState.SetWidth | src/entities/Paddle.js:28-34 | width = max(40, min(maxWidth, w)), and only x and width change. The paddle stays in the arena when it fits. The centre is kept unless the clamp has to move x. |
| Paddles.PaddleState.Update | src/entities/Paddle.js:36-52 | Only x changes. With a held direction, x moves by dir·speed·dt and is clamped, and the mouse position is ignored. With no direction and an active pointer that has an x, x becomes pointerX − width/2, clamped. Otherwise nothing changes. |
| Paddles.Dir | src/entities/Paddle.js:37-39 | dir ∈ {−1, 0, 1}. It is −1 iff only a left key is held and 1 iff only a right key is held. |
| Paddles.NewPaddle | src/entities/Paddle.js:5-22 | baseWidth = width and maxWidth = 1.8·width; the box is (x, y, width, height); speed and arena width are as given. |
| Paddles.UpdateStaysInArena | src/entities/Paddle.js:36-56 | A paddle inside the arena stays inside after any update. |
| Paddles.KeysOverridePointer | src/entities/Paddle.js:41-45 | With a direction held, the pointer has no effect. |
| Paddles.OpposingKeysCancel | src/entities/Paddle.js:37-51 | Holding left and right together is the same as holding no key: control falls to the pointer. |
| Paddles.WidenStaysInArena | src/entities/Paddle.js:12-34 | Widening to 1.6·baseWidth keeps the paddle in the arena, at width max(40, 1.6·baseWidth). |
| Paddles.Paddle.constructor | src/entities/Paddle.js:5-14 | The new paddle's state is `NewPaddle` of its arguments. |
| Paddles.Paddle.ResetSize | src/entities/Paddle.js:24-26 | The new state is `ResetSize` of the old one. |
| Paddles.Paddle.SetWidth | src/entities/Paddle.js:28-34 | The new state is `SetWidth` of the old one. |
| Paddles.Paddle.Update | src/entities/Paddle.js:36-52 | The new state is `Update` of the old one. |
| Paddles.Paddle.ClampX | src/entities/Paddle.js:54-56 | The new state is `ClampX` of the old one. |
| Balls.BallState.ResetOnPaddle | src/entities/Ball.js:20-26 | Stuck, velocity zero, x = the paddle's centre, y = paddle.y − radius − 2; nothing else changes. |
| Balls.BallState.Launch | src/entities/Ball.js:28-36 | No-op when not stuck. Otherwise the ball becomes free with velocity (cos a, sin a)·minSpeed for the drawn angle a, and nothing else changes. |
| Balls.BallState.Integrate | src/entities/Ball.js:49-50 | The position advances by v·dt and nothing else changes. |
| Balls.BallState.Record | src/entities/Ball.js:53-54 | Only the trail changes. It becomes the last min(n + 1, 22) samples of the old trail plus the current sample, so the newest sample is last. |
| Balls.BallState.ReflectWalls | src/entities/Ball.js:57-67 | Left wall: x := r and vx is negated. Else right wall: x := arenaW − r and vx is negated. Top: y := r and vy is negated. The bottom is never reflected, and an untouched axis is unchanged. |
| Balls.BallState.CapSpeed | src/entities/Ball.js:70-75 | Only the velocity changes. It is unchanged at or below the limit; above it, both components are scaled by limit / speed. |
| Balls.BallState.Update | src/entities/Ball.js:42-76 | A stuck ball follows the paddle and empties its trail, keeping its velocity. A free ball integrates, records, reflects off the walls and caps its speed, in that order. Radius and stuck never change, and the trail holds at most 22 samples. |
| Balls.LaunchAngle | src/entities/Ball.js:32 | The launch angle lies in −π/2 ± 0.225 for every draw in [0, 1). |
| Balls.Keep | src/entities/Ball.js:54 | The splice keeps the newest min(n, max) samples in their order. |
| Balls.NewBall | src/entities/Ball.js:5-18 | Stuck, with zero velocity, an empty trail, and the given position and radius. |
| Balls.CapSpeedBounds | src/entities/Ball.js:70-75 | After the cap, speed² ≤ limit². The velocity is the old one times a factor in [0, 1], so the direction is kept. |
| Balls.ScaledToLimit | src/entities/Ball.js:72-74 | Scaling a velocity of speed sp by limit/sp gives speed exactly limit. |
| Balls.WallsKeepBallInside | src/entities/Ball.js:57-67 | After the wall pass, r ≤ x ≤ arenaW − r, y ≥ r, y is never moved down, and speed is unchanged. |
| Balls.FreeFlightBounds | src/entities/Ball.js:49-75 | After a free-flight update, speed ≤ maxSpeed (760). The newest trail sample is the integrated position with the pre-wall velocity. |
| Balls.LaunchSpeed | src/entities/Ball.js:28-36 | A launched ball is free, moves up the screen, and its speed is exactly minSpeed (420). |
| Balls.Ball.constructor | src/entities/Ball.js:5-18 | The new ball's state is `NewBall` of its arguments. |
| Balls.Ball.ResetOnPaddle | src/entities/Ball.js:20-26 | The new state is `ResetOnPaddle` of the old one. |
| Balls.Ball.Launch | src/entities/Ball.js:28-36 | The new state is `Launch` of the old one. |
| Balls.Ball.Update | src/entities/Ball.js:42-76 | The new state is `Update` of the old one. |
| Balls.Ball.Record | src/entities/Ball.js:53-54 | The new state is `Record` of the old one. The push and splice act on the trail. |
| Balls.Ball.ReflectWalls | src/entities/Ball.js:57-67 | The new state is `ReflectWalls` of the old one. |
| Balls.Ball.CapSpeed | src/entities/Ball.js:70-75 | The new state is `CapSpeed` of the old one. |
| Powerups.PowerupState.Box | src/entities/Powerup.js:21-23 | A size × size square centred on (x, y). |
| Powerups.PowerupState.Fall | src/entities/Powerup.js:25-27 | Only y changes, by vy·dt. |
| Powerups.NewPowerup | src/entities/Powerup.js:12-19 | Not dead, with the given position, size, type and fall speed. |
| Powerups.FourKinds | src/entities/Powerup.js:1-6 | Every type is one of wide, slow, sticky, multiball, and those are four distinct types. |
| Powerups.Powerup.constructor | src/entities/Powerup.js:12-19 | The new power-up's state is `NewPowerup` of its arguments. |
| Powerups.Powerup.Update | src/entities/Powerup.js:25-27 | The new state is `Fall` of the old one. |
| LevelLoader.JsRem | src/game/LevelLoader.js:110 | JavaScript's `%`: the Euclidean remainder for a non-negative index; for a negative one, the remainder takes the sign of the index. |
| LevelLoader.GetLevelCount | src/game/LevelLoader.js:6-115 | The count is the number of table entries, 6. |
| LevelLoader.GetLevel | src/game/LevelLoader.js:109-111 | An index ≥ 0 gives levels[index mod 6]. A negative index gives a level only when it is a multiple of 6; otherwise the lookup is undefined. Any level returned is in the table. |
| LevelLoader.GetLevelWraps | src/game/LevelLoader.js:109-115 | Adding the level count to an index gives the same level. |
| LevelLoader.GetLevelNegative | src/game/LevelLoader.js:110 | getLevel(−6) is the first level and getLevel(−1) is undefined. |
| LevelLoader.IntroWellFormed | src/game/LevelLoader.js:7-20 | "Intro" is well formed: a rectangular grid of 14-character rows, a legend entry for every character, at least one breakable block, and explicit hp of 2 or 3 on strong blocks. |
| LevelLoader.StaggerWellFormed | src/game/LevelLoader.js:21-36 | "Stagger" is well formed. |
| LevelLoader.ReinforcedWellFormed | src/game/LevelLoader.js:37-52 | "Reinforced" is well formed, its strong blocks with explicit hp. |
| LevelLoader.ShieldWallWellFormed | src/game/LevelLoader.js:53-70 | "Shield Wall" is well formed, its strong blocks with explicit hp. |
| LevelLoader.ZigZagWellFormed | src/game/LevelLoader.js:71-87 | "Zig Zag" is well formed. |
| LevelLoader.DetonatorsWellFormed | src/game/LevelLoader.js:88-105 | "Detonators" is well formed. |
| LevelLoader.AllLevelsWellFormed | src/game/LevelLoader.js:6-106 | Every level of the table is well formed. |
| BlockLayout.BlockW | src/game/World.js:326-330 | With at least one column, the columns and their gaps fit within the arena width less both margins. |
| BlockLayout.DefAt | src/game/World.js:336-337 | A cell has a definition iff its column exists and its character is in the legend. |
| BlockLayout.CellBlock | src/game/World.js:336-361 | A cell yields a block iff its definition exists and is not "empty". The block's position is x = 30 + c·(blockW + 8) and y = 66 + r·30, with size blockW × 22 and row and col recorded. hp is the explicit hp, else 2 for strong and 1 otherwise, and maxHp = hp. score is the explicit score, else 40 strong / 0 unbreakable / 60 explosive / 50 splitter / 20. The block starts alive. |
| BlockLayout.DefaultHp | src/game/World.js:343-348 | A block without a legend hp has at least 1 hp, and 2 exactly when it is strong. |
| BlockLayout.DefaultScore | src/game/World.js:349-360 | A block without a legend score scores 0 exactly when it is unbreakable, 60 exactly when explosive, and at least 20 otherwise. |
| BlockLayout.RowBlocks | src/game/World.js:335-362 | A row gives at most one block per scanned column; each is alive, at full health and carries that row. |
| BlockLayout.GridBlocks | src/game/World.js:334-363 | Every block of the scanned rows is alive and at full health. |
| BlockLayout.LevelBlocks | src/game/World.js:322-365 | Every block is alive and at full health, and the blocks come in strictly increasing row-major cell order, so no cell gives two. |
| BlockLayout.RowBlocksAreCells | src/game/World.js:335-362 | A block is among a row's blocks iff some scanned cell of that row yields it (membership; the order is stated by BlockLayout.RowBlocksInCellOrder). |
| BlockLayout.GridBlocksAreCells | src/game/World.js:334-364 | A block is among the grid's blocks iff some cell yields it (membership; the order is stated by BlockLayout.GridBlocksInCellOrder). |
| BlockLayout.RowBlocksInCellOrder | src/game/World.js:335-362 | A row's blocks carry that row and a scanned column, in strictly increasing column order: one per cell, left to right. |
| BlockLayout.GridBlocksInCellOrder | src/game/World.js:334-364 | The grid's blocks carry a scanned row and come in strictly increasing (row, column) order, as the nested loop pushes them. |
| BlockLayout.EveryLevelStartsBreakable | src/game/World.js:322-365 | Every level of the table builds at least one breakable block. |
| BlockLayout.WellFormedStartsBreakable | src/game/World.js:322-365 | So does every well-formed level. |
| BlockLayout.CellsDoNotOverlap | src/game/World.js:340-341 | Blocks from two different cells do not overlap. |
| BlockLayout.ColumnsApart | src/game/World.js:340 | Column i ends before column j begins when i < j. |
| BlockLayout.BuildBlocksFromLevel | src/game/World.js:322-365 | The nested loop pushes exactly the row-major list of cell blocks. |
| BlockLayout.BuildCell | src/game/World.js:336-361 | The inner loop body yields exactly the cell's block, or none for a missing or empty legend entry. |
| Worlds.AabbOverlapMeansSharedPoint | src/game/World.js:367-369 | For boxes of positive size, `aabbOverlap` holds iff the boxes share an interior point. |
| Worlds.AabbOverlap | src/game/World.js:367-369 | Boxes that only touch along an edge do not overlap, and two boxes of non-positive width never do. |
| Worlds.DecayTimer | src/game/World.js:57-88 | A positive timer becomes max(0, t − dt) and any other stays as it is. For dt ≥ 0, the timer never grows and never goes negative. |
| Worlds.ApplyTimerIsMaxMerge | src/game/World.js:269-282 | Wide, slow and sticky set their own timer to max(current, 12 / 10 / 10). The other timers are untouched, no timer gets shorter, and applying twice is applying once. |
| Worlds.ApplyTimer | src/game/World.js:269-282 | No timer gets shorter. Wide leaves at least 12 s on the wide timer, slow and sticky at least 10 s on theirs, the other timers untouched. Multi-ball leaves the timers as they were. |
| Worlds.Bump | src/game/World.js:315-319 | Each juice field becomes the larger of its old value and the new one. |
| Worlds.BumpCommutes | src/game/World.js:315-319 | Two bumps in either order give the same juice. |
| Worlds.Cue | src/game/World.js:79-142 | A sound cue emits at most one event, and only a routine one: a sound, never a win or a lost life. |
| Worlds.DecayEffects | src/game/World.js:56-59 | Every timer decays, and the paddle's width is reset exactly when the wide timer is 0 afterwards. Nothing else changes, and the world stays valid. |
| Worlds.LaunchOne | src/game/World.js:65 | A stuck ball is launched with the next draw, which it consumes. A free ball is left alone and draws nothing. |
| Worlds.LaunchAll | src/game/World.js:63-66 | Keeps the number of balls and consumes one draw per stuck ball. |
| Worlds.LaunchPrefix | src/game/World.js:65 | Launching the i-th ball extends the launched prefix by one. |
| Worlds.LaunchAllPointwise | src/game/World.js:65 | The i-th stuck ball takes the draw after those of the stuck balls before it. A free ball is unchanged. |
| Worlds.LaunchFreesEveryBall | src/game/World.js:63-66 | After Space, no ball is stuck. |
| Worlds.StepBalls | src/game/World.js:68-70 | Each ball takes its own update and the number of balls is kept. |
| Worlds.FallAll | src/game/World.js:73 | Each power-up falls and the number of power-ups is kept. |
| Worlds.FirstFree | src/game/World.js:291 | The first free ball if there is one. Every ball before it is stuck, and when none is found every ball is stuck. |
| Worlds.RefIndex | src/game/World.js:291 | The reference ball is a valid index when there is any ball. |
| Worlds.SpawnMultiBall | src/game/World.js:289-305 | No balls: nothing happens and nothing is drawn. Otherwise the reference ball is launched (if stuck) in place, and exactly two balls are appended. |
| Worlds.Twin | src/game/World.js:298-303 | A twin is free, at the reference's position with its radius, with an empty trail, moving at speed along angle a. |
| Worlds.MultiBallTwins | src/game/World.js:289-305 | The reference is free afterwards. With s = max(minSpeed, hypot(ref.vx, ref.vy)) and θ = atan2(ref.vy, ref.vx) of the launched reference, the first new ball is the twin at θ + 0.35 and the second the twin at θ − 0.35. Both are free, sit at its position with its radius, and move at exactly speed s ≥ minSpeed. |
| Worlds.TwinSpeed | src/game/World.js:296-302 | A twin moves at exactly the speed it is given. |
| Worlds.ApplyPowerup | src/game/World.js:269-287 | The timers change as `ApplyTimer` says. Wide also widens the paddle to 1.6·baseWidth. Multiball is `SpawnMultiBall`, and the other kinds leave balls and draws alone. Blocks, power-ups, juice and events are untouched, and validity is kept. |
| Worlds.CollectOne | src/game/World.js:74-83 | Only the i-th power-up can change, and the blocks are untouched. Events stay routine (score and sound only). Validity is kept. What happens to power-up i is stated by Worlds.CollectRule. |
| Worlds.CollectUpTo | src/game/World.js:74-83 | The same over the first n power-ups; later ones are untouched. |
| Worlds.CollectRule | src/game/World.js:74-83 | A dead power-up changes nothing. A live one overlapping the paddle is marked dead, its effect applied (timer merge, widen or multi-ball), the juice bumped by (0.08, 5, 0.06) and "powerup" cued. A live one clear of the paddle changes nothing else and is marked dead iff its top is more than 30 below the arena. |
| Worlds.LivePowerups | src/game/World.js:84 | Keeps a power-up iff it is live; the result is no longer than the input. Order and multiplicity are stated by Worlds.LivePowerupsSplits. |
| Worlds.LivePowerupsSplits | src/game/World.js:84 | Sweeping a concatenation is sweeping each part and concatenating: order and multiplicity are kept. |
| Worlds.LivePowerupsOne | src/game/World.js:84 | A single power-up is kept iff it is live. |
| Worlds.DecayJuice | src/game/World.js:87-88 | Shake and flash timers decay and the shake magnitude is kept. |
| Worlds.StrikeOffset | src/game/World.js:104-105 | The impact offset is clamped to [−1, 1]. |
| Worlds.BounceAngle | src/game/World.js:107-108 | The bounce angle lies within −π/2 ± 0.4π. |
| Worlds.StallSign | src/game/World.js:113 | `Math.sign(vx \|\| clamped \|\| 1)` is ±1. |
| Worlds.Bounce | src/game/World.js:99-113 | y := paddle.y − r − 0.5, and only y and the velocity change. \|vx\| ≥ 60 afterwards. |
| Worlds.BounceSendsBallUp | src/game/World.js:99-113 | A bounced ball moves up (vy < 0), with \|vx\| ≥ 60 and speed ≥ minSpeed. |
| Worlds.UpwardAtSpeed | src/game/World.js:106-113 | An upward unit heading at speed ≥ minSpeed, with vx raised to ±60 when smaller, keeps moving up at speed ≥ minSpeed. |
| Worlds.PaddleOne | src/game/World.js:91-118 | Only the i-th ball and the juice can change, and no draw is taken. Events stay routine. What happens to ball i is stated by Worlds.PaddleContact. |
| Worlds.PaddleUpTo | src/game/World.js:91-118 | The same over the first n balls; later balls are untouched. |
| Worlds.PaddleContact | src/game/World.js:91-118 | A stuck ball, or one clear of the paddle, changes nothing. A touching ball bumps the juice by (0.04, 3, 0.04) and cues "paddle". With sticky running it is reset on the paddle: stuck, still, at the centre, 2 above. Otherwise it becomes `Bounce` of itself, which heads up from just above the paddle when sine and cosine obey their laws. |
| Worlds.FirstContact | src/game/World.js:123-125 | The first live block the ball overlaps, in list order. No earlier block is a live overlap, and when none is found no block is. |
| Worlds.Touches | src/game/World.js:123-125 | A dead block is never touched, and a live block is touched by a ball whose centre lies in its box. |
| Worlds.Deflect | src/game/World.js:128-134 | The ball moves as the resolver moves it. An x-axis contact flips vx. Anything else flips vy, a null resolution included. |
| Worlds.Blast | src/game/World.js:233-247 | Keeps the number of blocks; its events are scores only. |
| Worlds.InBlast | src/game/World.js:233-240 | A block in the blast is live, breakable, knows its cell and lies within one row and one column of the centre; the centre cell itself never is. |
| Worlds.BlastOne | src/game/World.js:233-247 | A block outside the blast is unchanged with no event. A block in it loses one hp (only hp and dead change), and scores iff that leaves it at 0 or below. |
| Worlds.BlastPrefix | src/game/World.js:233-247 | The loop step over block k extends the blasted prefix by one. |
| Worlds.BlastHitsOnce | src/game/World.js:228-248 | No chain reaction. Each live breakable neighbour with \|Δrow\| ≤ 1 and \|Δcol\| ≤ 1 (not the centre) takes exactly one hit, and every other block is unchanged. |
| Worlds.PoolPick | src/game/World.js:264-265 | `pool[floor(u·4)]` picks wide, slow, sticky or multiball on the quarters of [0, 1). |
| Worlds.SpawnPowerup | src/game/World.js:263-267 | Appends one live power-up of size 22 falling at 170, with its kind from the next draw, which it consumes. Nothing else changes. |
| Worlds.OnBlockDestroyed | src/game/World.js:223-261 | Power-ups it adds are live. Balls, paddle and timers are untouched, and the number of blocks is kept. The drop roll of each kind is stated by Worlds.OrdinaryBlockRolls, Worlds.SplitterAlwaysDrops and Worlds.ExplosiveBlastsThenRolls. |
| Worlds.SplitterAlwaysDrops | src/game/World.js:251-255 | A splitter adds exactly one power-up at its centre and takes only the kind draw. Blocks, balls and events are untouched. |
| Worlds.ExplosiveBlastsThenRolls | src/game/World.js:228-260 | An explosive that knows its cell blasts its neighbours and reports their scores. Then it takes the 0.12 drop roll: with a drop, two draws and a power-up at the block's centre of the kind the second draw picks; without, one draw and no power-up. |
| Worlds.OrdinaryBlockRolls | src/game/World.js:257-260 | A destroyed normal or strong block changes no block, ball, juice or event. It takes one draw; below 0.12 a second draw picks the kind of one new power-up at its centre, otherwise no power-up is added. |
| Worlds.BlockOne | src/game/World.js:121-146 | Only ball i can change, and the number of blocks is kept. The paddle and timers are untouched. Events stay routine, and power-ups stay live. |
| Worlds.StrikeBlock | src/game/World.js:128-142 | The same for one contact of ball i with block j. |
| Worlds.OneBlockPerBall | src/game/World.js:121-146 | A free ball hits exactly the first live block it touches, and the ball becomes `Deflect` of itself against that block's box. When that block survives or is not an explosive, no other block changes. `onScore(block.score)` fires iff the hit destroyed the block. |
| Worlds.BlockUpTo | src/game/World.js:121-146 | The block loop over the first n balls; later balls are untouched. |
| Worlds.ExplosiveStrikeBlasts | src/game/World.js:128-142 | A ball that destroys an explosive knowing its cell leaves the blocks as the blast of the list with the struck block already hit; the events are its score, the blast's scores and the "block" cue. |
| Worlds.BlockMissLeavesStep | src/game/World.js:121-125 | A stuck ball, or one touching no live block, leaves the step unchanged. |
| Worlds.LiveBlocks | src/game/World.js:149 | Keeps a block iff it is live; the result is no longer than the input. Order and multiplicity are stated by Worlds.LiveBlocksSplits. |
| Worlds.LiveBlocksSplits | src/game/World.js:149 | Sweeping a concatenation is sweeping each part and concatenating: order and multiplicity are kept. |
| Worlds.LiveBlocksOne | src/game/World.js:149 | A single block is kept iff it is live. |
| Worlds.SpeedLimit | src/game/World.js:152-156 | The cap is 0.72·760 while slow runs and 760 otherwise. |
| Worlds.CapAll | src/game/World.js:154-162 | Each ball's speed is capped at the limit and the number of balls is kept. |
| Worlds.InPlay | src/game/World.js:165 | Keeps a ball iff y − r ≤ arenaH + 40; the result is no longer than the input. Order and multiplicity are stated by Worlds.InPlaySplits. |
| Worlds.InPlaySplits | src/game/World.js:165 | Filtering a concatenation is filtering each part and concatenating: order and multiplicity are kept. |
| Worlds.InPlayOne | src/game/World.js:165 | A single ball is kept iff y − r ≤ arenaH + 40. |
| Worlds.Finish | src/game/World.js:165-173 | Lost balls go. `onLifeLost` is appended iff no ball remains; otherwise `onWin` is appended iff no breakable block remains. |
| Worlds.EarlyPhases | src/game/World.js:56-70 | The first phases emit no event and keep the world valid. |
| Worlds.PowerupPhases | src/game/World.js:73-88 | Events stay routine, the world stays valid, and every power-up left is live. |
| Worlds.CollisionPhases | src/game/World.js:91-162 | Events stay routine and the world stays valid. Every block left is live, and power-ups stay live. |
| Worlds.Tick | src/game/World.js:54-174 | The tick keeps the paddle's widths positive and leaves no dead power-up; its outcome is stated by Worlds.TickOutcome and its sweeps by Worlds.TickSweeps. |
| Worlds.TickOutcome | src/game/World.js:54-174 | After a tick, `onLifeLost` fired iff no ball is left. `onWin` fired iff balls are left but no breakable block. Never both, and whichever fired came last, after routine events only. |
| Worlds.FinishOutcome | src/game/World.js:164-173 | The same, for the end of the tick on routine events. |
| Worlds.TickSweeps | src/game/World.js:84-165 | After a tick every block and power-up is live and every ball is in play. |
| Worlds.RunningEffects | src/game/World.js:308-311 | Lists "WIDE", "SLOW" and "STICKY" each iff its timer is positive. |
| Worlds.GetEffectsSummaryAsWritten | src/game/World.js:307-313 | As written: with no effect running the summary is the three-character misencoded dash; with wide running it starts with "WIDE". |
| Worlds.GetEffectsSummary | src/game/World.js:307-313 | Corrected: with no effect running the summary is the em dash; with wide running it starts with "WIDE". |
| Worlds.IdleSummaryMisencoded | src/game/World.js:312 | As written, the idle summary is three stray characters, not the em dash. |
| Worlds.SummaryNamesEffects | src/game/World.js:307-313 | The corrected summary is the dash iff no effect runs. It is "WIDE, SLOW, STICKY" with all three running, and "WIDE" with only wide. |
| Worlds.JoinStartsWithFirst | src/game/World.js:312 | A join starts with its first part. |
| WorldObjects.StartPaddle | src/game/World.js:21-28 | The starting paddle is 140 wide, centred in the arena, 42 above the bottom. |
| WorldObjects.Serve | src/game/World.js:49-52 | One stuck ball of radius 8 with zero velocity and no trail, at the paddle's centre, 2 above it. |
| WorldObjects.NewWorld | src/game/World.js:11-47 | The new world is valid. It has that paddle and serve, the level's blocks, no power-ups, all timers 0 and no juice. |
| WorldObjects.World.constructor | src/game/World.js:11-47 | The new world's state is `NewWorld`, with no events and the given draws. |
| WorldObjects.World.ResetServe | src/game/World.js:49-52 | The balls become the serve on the current paddle and nothing else changes. |
| WorldObjects.World.GetEffectsSummary | src/game/World.js:307-313 | The world's summary is the em dash when no effect runs and starts with "WIDE" while wide runs. |
| WorldObjects.World.Update | src/game/World.js:54-174 | The new state, events and draws are exactly `Tick` of the old world. |
| WorldObjects.World.Prepare | src/game/World.js:55-88 | The new state is the early and power-up phases of the old one. |
| WorldObjects.World.Settle | src/game/World.js:90-173 | The new state is the collision phases and the end of the tick. |
| WorldObjects.World.EarlyPhases | src/game/World.js:55-70 | The new state is `Worlds.EarlyPhases` of the old one. |
| WorldObjects.World.DecayTimers | src/game/World.js:56-59 | The new state is `DecayEffects` of the old one. |
| WorldObjects.World.LaunchBalls | src/game/World.js:63-66 | The new balls and draws are `LaunchAll` of the old ones. |
| WorldObjects.World.LaunchAt | src/game/World.js:65 | Ball i and the draws become `LaunchOne` of them and nothing else changes. |
| WorldObjects.World.MoveBalls | src/game/World.js:68-70 | The new balls are `StepBalls` of the old ones. |
| WorldObjects.World.PowerupPhases | src/game/World.js:73-88 | The new state is `Worlds.PowerupPhases` of the old one. |
| WorldObjects.World.FadeJuice | src/game/World.js:87-88 | The new juice is `DecayJuice` of the old one. |
| WorldObjects.World.CollectPowerups | src/game/World.js:74-83 | The new state is `CollectUpTo` over all power-ups. |
| WorldObjects.World.MovePowerups | src/game/World.js:73 | The new power-ups are `FallAll` of the old ones. |
| WorldObjects.World.CollectAt | src/game/World.js:75-82 | The new state is `CollectOne` for power-up i. |
| WorldObjects.World.AddJuice | src/game/World.js:315-319 | The new juice is `Bump` of the old one. |
| WorldObjects.World.Sfx | src/game/World.js:79 | The cue is appended to the events. |
| WorldObjects.World.ApplyPowerup | src/game/World.js:269-287 | The new state is `Worlds.ApplyPowerup`. |
| WorldObjects.World.SpawnMultiBall | src/game/World.js:289-305 | The new balls and draws are `Worlds.SpawnMultiBall` of the old ones. |
| WorldObjects.World.AddTwins | src/game/World.js:298-304 | Appends one twin per angle, in order, and nothing else changes. |
| WorldObjects.World.CollisionPhases | src/game/World.js:90-162 | The new state is `Worlds.CollisionPhases`. |
| WorldObjects.World.PaddlePass | src/game/World.js:91-118 | The new state is `PaddleUpTo` over all balls. |
| WorldObjects.World.BlockPass | src/game/World.js:121-146 | The new state is `BlockUpTo` over all balls. |
| WorldObjects.World.PaddleAt | src/game/World.js:92-117 | The new state is `PaddleOne` for ball i. |
| WorldObjects.World.BlockAt | src/game/World.js:122-145 | The new state is `BlockOne` for ball i. |
| WorldObjects.World.ScanBlocks | src/game/World.js:123-125 | Returns the index `FirstContact` finds, or the length when there is none. |
| WorldObjects.World.StrikeAt | src/game/World.js:128-142 | The new state is `StrikeBlock` for ball i and block j. |
| WorldObjects.World.DeflectAt | src/game/World.js:128-134 | Ball i becomes `Deflect` of it and nothing else changes. |
| WorldObjects.World.OnBlockDestroyed | src/game/World.js:223-261 | The new state is `Worlds.OnBlockDestroyed`. |
| WorldObjects.World.Explode | src/game/World.js:233-247 | The new blocks and events are `Blast` of the old ones. |
| WorldObjects.World.BlastAt | src/game/World.js:234-246 | Block k and the events change as `BlastOne` says and nothing else changes. |
| WorldObjects.World.SpawnPowerup | src/game/World.js:263-267 | The new state is `Worlds.SpawnPowerup`. |
| WorldObjects.World.ApplySpeedCap | src/game/World.js:152-162 | The new balls are `CapAll` at `SpeedLimit`. |
| WorldObjects.World.EndOfTick | src/game/World.js:149-173 | The new state is `Finish` of the old one. |
| Games.JustPressed | src/game/Game.js:70-78 | True iff the key is down and was not remembered. The remembered set gains the key while it is down and loses it once it is up. |
| Games.HeldKeyFiresOnce | src/game/Game.js:70-78 | A key held down fires on the first update iff it was not remembered, never on the next one while still held, not on its release, and again when pressed after the release. |
| Games.Enter | src/game/Game.js:138-155 | The state becomes the next one, with the "win" or "game_over" sound for those states; nothing else changes. |
| Games.NewRun | src/game/Game.js:157-162 | Score 0, 3 lives, level 0 and no world; nothing else changes. |
| Games.WithLevel | src/game/Game.js:164-172 | The level index is set and the world is a new world of that level. |
| Games.OnEvent | src/game/Game.js:173-190 | Keeps the session consistent. The state stays or becomes win or game over, and the level, keys and draws are kept. |
| Games.OnEvents | src/game/Game.js:173-190 | The same for the events of a tick, handled in order. |
| Games.RoutineEventsOnlyScore | src/game/Game.js:187-190 | Score and sound events change the score by their total, and leave state, lives and world alone. |
| Games.LifeLostRule | src/game/Game.js:173-183 | One life fewer. At none left: game over with its sound and no new serve. Otherwise: the "life_lost" sound and a new serve on the paddle. |
| Games.Toggles | src/game/Game.js:83-90 | Keeps the session consistent and the draws. Without a new P or R, only the remembered keys change. P on the title, win and game-over screens is stated by Games.PauseIgnoredOnScreens. |
| Games.PauseIgnoredOnScreens | src/game/Game.js:83-86 | P toggles only between play and pause: on the title, win and game-over screens, without R, the state and the world stay as they were. |
| Games.Restart | src/game/Game.js:95-120 | Playing, score 0, 3 lives, level 0 and a new world of the first level. |
| Games.TitleStep | src/game/Game.js:92-100 | A newly pressed Space starts a run: playing, level 0, score 0, 3 lives, a new world of the first level. Without it only the remembered keys change. The session stays consistent. |
| Games.Advance | src/game/Game.js:105-121 | Always ends in play. From game over, or after the last level, it is a new run at level 0 with score 0, 3 lives and the first level's world. After a win with a next level, that level is loaded keeping score and lives. |
| Games.EndStep | src/game/Game.js:102-124 | A newly pressed Space goes to play, and from game over it is a new run at level 0 with score 0 and 3 lives. Without it only the remembered keys change. |
| Games.PlayStep | src/game/Game.js:126-129 | With a world, the draws move on exactly as the world's tick moves them. Without one, nothing changes. The state stays or becomes win or game over. |
| Games.UpdateSession | src/game/Game.js:80-130 | Keeps the session consistent. |
| Games.PauseStopsPlay | src/game/Game.js:83-126 | P in play pauses, and the world does not tick in that update. |
| Games.PausedHolds | src/game/Game.js:126 | A paused game without P or R changes only the remembered keys. |
| Games.PauseResumes | src/game/Game.js:83-129 | P on a paused game resumes it with the world kept, and the same update is the tick of that world followed by the handling of its events. |
| Games.ResetRule | src/game/Game.js:87-162 | R returns to the title with score 0, 3 lives, level 0 and no world. If Space is also newly pressed there, play restarts at the first level. |
| Games.WinAdvances | src/game/Game.js:102-121 | Space on the win screen loads the next level, keeping score and lives, when one exists. Otherwise it resets the run at the first level. |
| Games.GameOverRestarts | src/game/Game.js:102-110 | Space on the game-over screen always starts a new run: playing, level 0, score 0, 3 lives, the first level's world. |
| Games.TitleStarts | src/game/Game.js:92-100 | Space on the title screen starts a run: playing, level 0, score 0, 3 lives, the first level's world. |
| Games.ScreensWaitForSpace | src/game/Game.js:92-124 | Title, win and game over change nothing but the remembered keys until Space is newly pressed. |
| Games.LastEventDecides | src/game/Game.js:173-186 | After routine events, a final win shows the win screen with lives and world unchanged. A final life lost costs one life: with lives to spare play goes on with a new ball served; on the last life the game is over and no ball is served. |
| Games.PlayIsTick | src/game/Game.js:128-129 | In play without toggles, the update is the world's tick followed by its callbacks. |
| Games.PlayingTicks | src/game/Game.js:128-189 | In play, the tick's outcome decides the screen. A win shows the win screen. A lost ball costs a life and serves a new ball, or, on the last life, ends the game with the world as the tick left it. Otherwise the world moves on and the score grows by the tick's points. |
| Games.EventsDecide | src/game/Game.js:173-189 | The same for any event sequence shaped like a tick's, for every number of lives. |
| Games.RunSteps | src/game/Game.js:61-64 | Any number of fixed steps keeps the session consistent. |
| Games.FrameDelta | src/game/Game.js:53-58 | The frame delta is capped at 50 ms, and it is 0 on the first frame. |
| Games.AtMostSixSteps | src/game/Game.js:34-64 | Starting below one step, a frame of at most 50 ms runs at most 6 steps of 1000/120 ms. |
| Games.TraceIsRun | src/game/Game.js:61-64 | A trace of consecutive updates ends where `RunSteps` from its start ends. |
| Games.Game.constructor | src/game/Game.js:18-41 | Title, score 0, 3 lives, level 0, no keys remembered, no world; the accumulator is 0 and the loop is not running. |
| Games.Game.Start | src/game/Game.js:43-49 | Marks the loop running and changes nothing else. |
| Games.Game.Frame | src/game/Game.js:51-68 | The banked time is the old accumulator plus the capped delta. The loop runs steps while a full step is banked and leaves less than one step. Every step is `UpdateSession` of the one before. From [0, step) a frame runs at most 6 steps. A stopped game does nothing. |
| Games.Game.Bank | src/game/Game.js:53-59 | lastTs becomes the timestamp, and the accumulator grows by the capped delta. |
| Games.Game.CatchUp | src/game/Game.js:61-64 | Each iteration subtracts one step. It ends below one step, never goes negative from a non-negative start, and runs no step from below one step. The sessions form a trace of updates. |
| Games.Game.FixedStep | src/game/Game.js:62-63 | One `UpdateSession` and one step off the accumulator. |
| Games.Game.JustPressedKey | src/game/Game.js:70-78 | The result and the remembered keys are `JustPressed`. |
| Games.Game.SetState | src/game/Game.js:138-155 | The session becomes `Enter` of the old one. |
| Games.Game.ResetRun | src/game/Game.js:157-162 | The session becomes `NewRun` of the old one. |
| Games.Game.LoadLevel | src/game/Game.js:164-193 | The session becomes `WithLevel`, with a fresh world sized to the screen. |
| Games.Game.Deliver | src/game/Game.js:173-190 | The session becomes `OnEvents` of the tick's events. |
| Games.Game.OnCallback | src/game/Game.js:173-190 | The session becomes `OnEvent` of one event. |
| Games.Game.Update | src/game/Game.js:80-130 | The session becomes `UpdateSession` of the old one. |
| Games.Game.Toggle | src/game/Game.js:83-90 | The session becomes `Toggles` of the old one. |
| Games.Game.TitleScreen | src/game/Game.js:92-100 | The session becomes `TitleStep` of the old one. |
| Games.Game.RestartRun | src/game/Game.js:95-97 | The session becomes `Restart` of the old one. |
| Games.Game.EndScreen | src/game/Game.js:102-124 | The session becomes `EndStep` of the old one. |
| Games.Game.NextLevel | src/game/Game.js:112-121 | The session becomes `Advance` of the old one. |
| Games.Game.PlayLevel | src/game/Game.js:115-116 | Loads the level and enters play. |
| Games.Game.Play | src/game/Game.js:126-129 | The session becomes `PlayStep` of the old one. |

## Left out

- **Drawing:** all `render` methods, the drawing helpers, the randomised screen shake, `Game._render`, `_renderTitle`, `_updateHud` and `_setHudMessage`. They draw on the canvas or write to the page. Juice values are kept, because `_juice` is part of the tick.
- **Audio:** src/audio/audio.js synthesises sound. `sfx` and `onSfx` are kept only as the cue names they emit.
- **src/main.js and src/input/Input.js are not part of this model.** The input is a value: held keys, pointer activity, pointer x and pointer-down.
  - `consumePointerDown` and `ensureAudioUnlocked` (src/game/Game.js:81, 94, 104) only unlock audio.
- **Frame scheduling:** `requestAnimationFrame`. `Games.Game.Frame` takes the timestamp as a parameter instead.
- **Floating point:** coordinates are real numbers, so there is no IEEE rounding. `Math.floor` in the block width and the power-up pick is `real.Floor`.
- **Host maths:** `Math.hypot`, `Math.cos`, `Math.sin` and `Math.atan2` are an uninterpreted value. Lemmas that need their values assume only the laws at the points used: hypot is the non-negative root of x² + y², and cos² + sin² = 1 with the right signs on (−π, 0).
- **Randomness:** `Math.random` is a stream of draws in [0, 1) supplied by the caller, not a random source.
- **Aliasing:** the world's balls, blocks and power-ups are sequences of values rather than lists of objects. No entity is shared between the lists in the source, so no aliasing is lost. The in-place field updates of those entities are modelled by replacing the element.
- **Ball limits:** each ball's `maxSpeed`, `minSpeed` and `trailMax` are the module constants 760, 420 and 22, because the source sets them only in the constructor. So `balls[0]?.maxSpeed ?? 760` (src/game/World.js:153) is 760 either way.
- Balls.BallState.CapSpeed requires a non-negative limit. The only caller passes 760 or 0.72·760.
- Worlds.StrikeOffset, Worlds.BounceAngle, Worlds.Bounce and Worlds.PaddleOne require a paddle of non-zero width. The source divides by half the width (src/game/World.js:104), and every paddle the game builds is at least 40 wide.
- Worlds.PaddleContact and Worlds.PaddleUpTo require the same positive paddle width, for the same reason.
- **Preconditions on valid levels:** Games.WithLevel and Games.Game.LoadLevel require an index of the table. The game only loads level 0 or an index it has checked against the level count (src/game/Game.js:113-114).
- Games.OnEvent handles `onLifeLost` after the tick, not in the middle of it. It is always the tick's last call (`Worlds.TickOutcome`), so the resulting session is the same.
- **Blocks without a cell:** a block may lack `row`/`col` (src/game/World.js:232, 236). This is modelled as an optional row and column; every block the builder makes has both.

## Findings

| source | as written | input that shows it | evidently intended | confidence | as-written member | corrected member |
|---|---|---|---|---|---|---|
| src/game/World.js:312 | With no effect running, `getEffectsSummary` returns "â€”": U+00E2, U+20AC, U+201D. These are the UTF-8 bytes of an em dash read back as Windows-1252. | effects wide = slow = sticky = 0: the summary is the three characters, not "—" | "—", the em dash Game.js shows when there is no world (src/game/Game.js:199) | not executed | Worlds.GetEffectsSummaryAsWritten (exhibited by Worlds.IdleSummaryMisencoded) | Worlds.GetEffectsSummary (proved in Worlds.SummaryNamesEffects; used by WorldObjects.World.GetEffectsSummary) |
