# Spark Break: a verified model of the game state engine

Spark Break is a Ballz-style breakout game running in the browser
(`game.js`). It draws a 600 x 800 canvas with a board of 10-pixel blocks
between y = 160 and y = 400, and a collection line at y = 480. The player
aims from a launch point and releases a volley of balls, one every 50 ms.
Each ball moves by its velocity every tick and bounces off the side walls,
the ceiling and the blocks. A ball whose centre is at or below the
collection line is counted as returned and stops. A round ends when every
ball has returned. The board then moves down one cell, the game-over and
stage-clear tests run, and the level number goes up.

As written, the launch point is at (300, 750), already below the
collection line. The aim clamp keeps every shot upward or level, so a
ball's vertical speed lies in [-12, 0]. Its first move leaves it at
y >= 738, so the ball is counted as returned in the first tick that
updates it, without reaching the ceiling (`LaunchedBallReturnsAtOnce`).
A ball of radius 6 that low can only touch a block whose bottom edge is
below y = 732. That is far under the collection line, where a live block
would already have ended the game (game.js:409-416).

The board is built once, by `generateLevel1`:

- a 24 x 60 grid of Normal blocks with one to three hit-points;
- a fixed "T" of indestructible walls;
- three to five Ball+1 blocks.

A struck Ball+1 block drops a falling bonus. A bonus that reaches the
collection line adds a ball to the volley.

This project models that engine in Dafny and proves what it does.

- `blocks.dfy` (module `Blocks`) covers blocks, the board descent, the
  clean-up filter and the stage-clear filter, with lemmas about how they
  interact.
- `level.dfy` (module `Level`) covers `generateLevel1`, written as the
  same nested push loops and index overwrites. It is proved against a
  reference definition of the generated board, `IsLevel1`, from which the
  layout lemmas follow.
- `physics.dfy` (module `Physics`) holds the per-tick rules on the fields
  of a ball and of a falling bonus:
  - the motion step and the wall and ceiling bounces;
  - the block-hit rules;
  - the sweep of `checkBlockCollision` over the board;
  - the fall of a bonus;
  - the `forEach` over all balls and bonuses.

  These are specification functions, with the lemmas that state what they
  promise.
- `game.dfy` (module `Game`) holds the objects, which keep the form they
  have in the game:
  - `Ball` and `FallingBall` are classes whose `update` methods change
    their own fields and the game's shared fields;
  - `GameState` is the `gameState` record, with the tick, round resolution,
    the launch, initialisation and the input handlers as methods.

  Each method is proved to update the state as the `Physics` functions
  say.

Randomness and host services are parameters of the model:

- **`Math.random`.** The values it would return are passed in: `hpDraws`
  (one per cell), `countDraw` (the number of Ball+1 blocks) and
  `cellDraws` (a column and a row per Ball+1 block). Each is required to
  lie in [0, 1).
- **`atan2`, `cos` and `sin`.** The handlers receive their results.
  `MouseDown` and `MouseMove` get the pointer angle; `LaunchBalls` and
  `MouseUp` get the cosine and sine of the aim.
- **Host timers.**
  - The `setInterval` of a launch is a `LaunchTimer`, which holds the
    captured velocity and the number of balls released so far.
  - The `setTimeout` that spawns a bonus becomes a pending `Spawn`.
  - The host fires these with `FireLaunchTimer` and `FireSpawnTimer`, in
    any order between ticks. A launch firing re-reads the ball count each
    time, as the interval callback does.

Several behaviours of the code are easy to miss, and the model keeps each one:

- **The aim clamp.** Any positive angle goes to -0.1, even one pointing
  down and to the left. It does not go to the nearer bound.
- **The stage-clear filter.** It counts only walls and live Ball+1 blocks,
  so live Normal blocks do not prevent a clear.
- **A landing ball.** A ball that lands is still swept over the board in
  the same tick.
- **The stage clear.** It calls `initGame`, which leaves `isPlaying` false,
  so the game stops after a clear.
- **Walls.** They are never damaged and never filtered out. A generated
  board therefore can never be cleared (`Level1NeverClears`,
  `WallsOutlastRound`, `WallPreventsClear`).
- **Two game loops after Start.** The Start button calls `gameLoop()`
  (game.js:654) while the loop started when the page loads (game.js:674)
  is still scheduling itself, so from then on `update()` runs twice per
  frame. The model's frame step is one call of `update()`; a frame of the
  running game is two of them.

## Model

| member | source | states |
|---|---|---|
| Blocks.NewBlock | game.js:270-276 | `new Block`: a block whose maximum hit-points start equal to its hit-points. `Level.Level1Layout` states this for every generated block. |
| Blocks.MoveDown | game.js:303-305 | `moveDown`: the block one cell lower. `Blocks.DescentMovesEachBlock` states what changes. |
| Blocks.Descended | game.js:404-406 | The board after every block's `moveDown`. The result has the board's length; `Blocks.DescentMovesEachBlock` gives each block. |
| Blocks.Filter | game.js:477 | `Array.prototype.filter` on the board. The result is never longer than the board; `Blocks.FilterMembers` and `Blocks.FilterAppend` give its contents and order. |
| Blocks.Survives | game.js:477 | The clean-up filter after a round keeps a block exactly when it is a wall or has hit-points left. `Blocks.DescentCommutesWithCleanUp` and `Blocks.WallsOutlastRound` use it. |
| Blocks.Obstructs | game.js:419-423 | The stage-clear filter counts a block exactly when it is a wall, or a Ball+1 block with hit-points left. `Blocks.StageClearedIff` states the clear test in its terms. |
| Blocks.ReachedBottom | game.js:409-411 | The game-over test: some block with hit-points left is at y >= 480. |
| Blocks.StageCleared | game.js:419-425 | The stage-clear test: the filter for walls and live Ball+1 blocks keeps nothing. `Blocks.StageClearedIff` characterises it. |
| Blocks.DescentMovesEachBlock | game.js:303-305 | Descent keeps the board's length and lowers each block by exactly 10 pixels. Column, type, hit-points and maximum hit-points stay the same. |
| Blocks.FilterMembers | game.js:477 | A filter keeps a block exactly when the block is on the board and satisfies the predicate. |
| Blocks.FilterAppend | game.js:477 | Filtering distributes over concatenation, so the kept blocks stay in board order. |
| Blocks.FilterKeepsAll | game.js:477 | A filter every block passes returns the board unchanged. |
| Blocks.FilterKeepsNone | game.js:419-423 | A filter no block passes returns the empty board. |
| Blocks.FilterDropsFailing | game.js:477 | The filter drops nothing if and only if every block passes. |
| Blocks.DescentCommutesWithCleanUp | game.js:474-477 | Descending and then removing destroyed blocks gives the same board as removing first and then descending. |
| Blocks.WallsOutlastRound | game.js:470-479 | A board with a wall still has one after descent and clean-up. |
| Blocks.WallPreventsClear | game.js:419-425 | A board with a wall never passes the stage-clear test. |
| Blocks.StageClearedIff | game.js:419-425 | The stage-clear test passes if and only if the board holds no wall and no Ball+1 block with hit-points left. Normal blocks never matter. |
| Blocks.NormalBlocksDoNotObstruct | game.js:419-425 | A board of Normal blocks only, whatever their hit-points, passes the stage-clear test. |
| Blocks.WallReachingLineEndsGame | game.js:409-416 | A wall that descends to the collection line triggers the game-over test. |
| Blocks.DestroyedBlocksNeverEndGame | game.js:409-411 | Blocks without hit-points never trigger the game-over test, wherever they are. |
| Level.CellPosition | game.js:344-349 | Row and column are recovered from index `row*60+col`, for any column below 60. |
| Level.PositionCell | game.js:344-349 | Every index is `row*60+col` of its own row and column. |
| Level.HpFromDraw | game.js:348 | A Normal block's hit-points are 1 to 3 for any draw in [0, 1). |
| Level.BonusCount | game.js:387 | The Ball+1 count is 3 to 5 for any draw in [0, 1). |
| Level.BonusTarget | game.js:389-391 | A Ball+1 draw aims at a cell in columns 10-49 and rows 5-18. |
| Level.IsWallCell | game.js:355-384 | The wall "T": row 6 from column 5 to 54, and columns 5, 30 and 54 from row 7 to 17. `Level.Level1Cell` places a wall exactly on these cells. |
| Level.Level1Cell | game.js:334-398 | Reference definition of one generated cell. A "T" cell holds a wall; otherwise a cell aimed at by a Ball+1 draw holds a Ball+1 block; otherwise the cell keeps its Normal block. |
| Level.IsLevel1 | game.js:334-398 | Reference definition of the generated board: 1440 cells, each equal to `Level.Level1Cell` under the drawn count of Ball+1 draws. |
| Level.FillGrid | game.js:344-351 | The nested loops push 1440 Normal blocks. Block `i` sits at its grid position and takes hit-point draw `i`. |
| Level.LayCrossbar | game.js:355-360 | Row 6, columns 5-54, become walls. Every other cell is unchanged. |
| Level.LayUpright | game.js:363-384 | Column `col`, rows 7-17, become walls. Every other cell is unchanged. |
| Level.LayBonuses | game.js:387-397 | Each drawn cell becomes a Ball+1 block only if it still holds a Normal block. The result is the reference board `IsLevel1`. |
| Level.GenerateLevel1 | game.js:334-398 | The board built from the draws is exactly the reference board `IsLevel1`. |
| Level.Level1Layout | game.js:334-398 | On a generated board, every block is at `(col*10, (16+row)*10)` with maximum equal to hit-points. Walls are exactly the "T" cells, with 999999 hit-points. Normal blocks take their hit-point draw. Ball+1 blocks have 1 hit-point and lie in columns 10-49, rows 5-18. |
| Level.DistinctCellsAtMostDraws | game.js:388-391 | The draws aim at no more distinct cells than there are draws. |
| Level.Level1BonusCount | game.js:387-397 | A generated board holds at most the drawn count of Ball+1 blocks, and at most 5. |
| Level.Level1NeverClears | game.js:355-384 | A generated board has a wall and so never passes the stage-clear test. Every one of its blocks survives clean-up. |
| Physics.Advance | game.js:150-162 | The motion step of `Ball.update`: move by the velocity, then bounce off the side walls with the centre clamped inside, and off the ceiling. `Physics.AdvanceKeeps` states its properties. |
| Physics.Intersects | game.js:212-221 | `isCollidingWith`: the nearest point of the block's square is closer to the centre than the radius, compared on squared distances. |
| Physics.Reflect | game.js:232-236 | The velocity part of `reflectFrom`. `Physics.ReflectFlipsOne` states it. |
| Physics.AdvanceKeeps | game.js:150-162 | A motion step only keeps or negates each velocity component, so speed on each axis is preserved. The centre ends at least one radius below the ceiling and inside the side walls. |
| Physics.ReflectFlipsOne | game.js:232-236 | A reflection keeps the position and negates exactly one velocity component. It negates the horizontal one exactly when the horizontal offset strictly dominates, and the vertical one otherwise. |
| Physics.Struck | game.js:178-180 | A block takes part in the sweep exactly when it has hit-points left and the ball overlaps it. |
| Physics.Strike | game.js:177-207 | One iteration of the sweep in `checkBlockCollision`. `Physics.StrikeRules` states the rules. |
| Physics.Collide | game.js:176-210 | `checkBlockCollision`: the blocks in board order, each met by the ball as the earlier ones left it. The result has one block per block; `Physics.CollideKeeps`, `Physics.CollideBlockwise` and `Physics.CollideScore` state the rest. |
| Physics.StrikeRules | game.js:177-207 | The block-hit rules. A block with no hit-points, or not touched, is skipped. A wall only reflects the ball. A Ball+1 block drops to 0 hit-points for +100 score and +1 combo, with a bonus spawned at its centre. A Normal block loses one hit-point for +10 score, with +1 combo only if it survives. Nothing else about the ball or the block changes. |
| Physics.CollideKeeps | game.js:176-210 | The sweep never moves the ball and keeps its speed on each axis. The position clause holds only because a reflection here keeps the ball's position (see the push-out under "Left out"). The score and combo never drop. Each block adds at most one combo step and one bonus. |
| Physics.StrikeIgnoresVelocity | game.js:177-180 | What a hit does to a block, the score and the combo depends on the ball's position only. In the model, a reflection never moves the ball. |
| Physics.CollideBlockwise | game.js:176-210 | After the sweep, each block is exactly what the hit rules make of it alone with the ball where it started, so no untouched block changes. This holds only because a reflection here keeps the ball's position. |
| Physics.CollideScore | game.js:176-210 | The sweep's score is the sum of each block's points on its own, with the ball where it started. This holds only because a reflection here keeps the ball's position. |
| Physics.SweepSparesWalls | game.js:181-183 | Walls and untouched blocks come through a sweep unchanged, and hit-points never grow. The untouched-block clause holds only because a reflection here keeps the ball's position; the wall clause and the hit-point bound do not depend on it. |
| Physics.BallUpdate | game.js:147-174 | `Ball.update` on the ball's fields and the shared fields it touches. `Physics.BallUpdateEffect` states what it does. |
| Physics.Landing | game.js:166-167 | A ball stays active exactly when it was active and its move leaves it above the collection line. |
| Physics.LaunchedBallReturnsAtOnce | game.js:147-169 | An active ball at the launch height y = 750 with vertical speed in [-12, 0] ends its first update inactive, at y = 750 + vy, and is counted returned exactly once. |
| Physics.BallUpdateEffect | game.js:147-174 | An inactive ball and the game are left alone. An active ball lands exactly when its move reaches y >= 480; it is then counted returned once and moves the launch point to its landing x. Speeds, board size, score and combo never go down. |
| Physics.StepBalls | game.js:570 | `balls.forEach(ball => ball.update())`: one state per ball, with each ball seeing the board and counters the previous one left. `Physics.StepBallsCountsReturns` states the effect. |
| Physics.StepBallsCountsReturns | game.js:570 | Over one tick, the returned count grows by exactly the number of balls that landed. Inactive balls are untouched, no ball becomes active again, and every ball keeps its speed on each axis. |
| Physics.Fall | game.js:86-95 | `FallingBall.update` on a bonus's fields, with the ball gained. `Physics.FallRule` states it. |
| Physics.FallRule | game.js:86-95 | A bonus's y grows by its speed, and the speed then grows by 0.2. It gains a ball exactly when that new y is at least 480, and it is collected exactly then or if it already was. |
| Physics.FallAll | game.js:571 | `fallingBalls.forEach(ball => ball.update())`: one state per bonus, with the total balls gained. `Physics.FallGainsOnePerBonus` relates that total to the bonuses collected. |
| Physics.FallGainsOnePerBonus | game.js:571-575 | With no bonus collected before the tick, the balls gained equal the number of bonuses collected in it. |
| Game.ClampAim | game.js:621-623 | The aim always lies in [-pi, 0]. An angle already there is kept, a positive one becomes -0.1, and one below -pi becomes -pi + 0.1. |
| Game.Fire | game.js:451-466 | One firing of a launch interval: it clears itself once it has released the current ball count, and otherwise releases one more ball. `Game.LaunchReleasesBallCount` states the whole launch. |
| Game.LaunchReleasesBallCount | game.js:451-467 | A launch interval releases one ball per firing until it has released the ball count, then clears itself at the next firing. |
| Game.Ball.constructor | game.js:138-145 | A new ball is active, with the given position and velocity and the configured radius. |
| Game.Ball.ReflectFrom | game.js:223-236 | The ball's fields become `Reflect` of the old ones. |
| Game.Ball.HitBlock | game.js:177-207 | One iteration of the sweep changes the ball, block `i`, the score, the combo and the pending spawns exactly as `Strike` says. |
| Game.Ball.CheckBlockCollision | game.js:176-210 | The in-place loop over the board leaves the ball, board, score, combo and pending spawns exactly as the sweep `Collide` says. |
| Game.Ball.Move | game.js:150-162 | The ball's fields become `Advance` of the old ones. |
| Game.Ball.IsCollidingWith | game.js:212-221 | `isCollidingWith` on the ball object: the overlap test `Physics.Intersects` on the ball's current state. |
| Game.Ball.Update | game.js:147-174 | The ball and the shared game fields change exactly as `BallUpdate` says. |
| Game.FallingBall.constructor | game.js:79-84 | A new bonus starts uncollected at the given point, falling at speed 2. |
| Game.FallingBall.Update | game.js:86-95 | The bonus's fields and the ball count change exactly as `Fall` says. |
| Game.Uncollected | game.js:575 | The collected filter drops exactly as many bonuses as were collected. |
| Game.UncollectedKeeps | game.js:575 | The filter keeps exactly the uncollected bonuses, each one of the originals. Distinct bonuses stay distinct. |
| Game.InitialView | game.js:313-328 | The state `initGame` builds: level 1, score 0, one ball, every mode off, no balls or falling bonuses, angle pi/4, launch point (300, 750), counters at 0, the given board, and the host's pending timers unchanged. |
| Game.GameState.constructor | game.js:22-37 | The initial `gameState` has level 1, score 0, one ball, every mode off, no objects, aim pi/4 and launch point (300, 750). |
| Game.GameState.Reset | game.js:313-328 | `initGame`'s literal replaces every field. Pending host timers are kept. |
| Game.GameState.InitGame | game.js:312-332 | A fresh state around a board that is exactly the reference generated board. |
| Game.GameState.Start | game.js:650-667 | The start, restart and retry buttons run `initGame` and then set the game playing. |
| Game.GameState.UpdateBalls | game.js:570 | Updating the balls in list order leaves the balls and shared fields exactly as `StepBalls` says, and keeps the state invariant. |
| Game.GameState.FallBonuses | game.js:571 | Updating the bonuses in list order leaves each bonus as `FallAll` says, and the ball count grows by the balls gained. |
| Game.GameState.RemoveCollected | game.js:575 | The filter keeps exactly the uncollected bonuses, which stay distinct. |
| Game.GameState.UpdateFallingBalls | game.js:571-575 | The bonus update and its filter raise the ball count by exactly the number of bonuses removed, so each bonus gives at most one ball. The invariant that no listed bonus is collected is kept. |
| Game.GameState.DescendBlocks | game.js:404-406 | The in-place loop moves every block down, and nothing else changes. |
| Game.GameState.GameOver | game.js:598-599 | Only `isPlaying` changes, to false. |
| Game.GameState.NextLevel | game.js:432 | Only the level changes, by +1. |
| Game.GameState.MoveBlocksDown | game.js:402-434 | After descent: if a live block reaches y >= 480, the game stops. Otherwise, if no wall and no live Ball+1 block remains, the state is reinitialised around a new generated board. Otherwise the level goes up by one. Nothing else changes. |
| Game.GameState.EndShooting | game.js:472-473 | Shooting ends and the balls are discarded. Nothing else changes. |
| Game.GameState.RemoveDestroyed | game.js:477 | The board keeps exactly its walls and live blocks, in order. |
| Game.GameState.CheckAllBallsReturned | game.js:470-479 | Nothing happens unless shooting with every ball returned. Then shooting ends, the balls are cleared, and `MoveBlocksDown` decides the outcome once the board has descended. Its clean-up removes exactly the destroyed blocks. A freshly generated board loses none. |
| Game.GameState.Update | game.js:567-580 | A tick does nothing while the game is not playing, and always keeps the state invariant. |
| Game.GameState.LaunchBalls | game.js:440-449 | A launch starts shooting and stops aiming. It resets the returned count and the combo, and starts one interval with velocity 12 times the aim's cosine and sine. |
| Game.GameState.FireLaunchTimer | game.js:451-467 | A firing clears the interval once it has released the current ball count. Otherwise it appends one new ball at the launch point and counts it. |
| Game.GameState.FireSpawnTimer | game.js:191-195 | A pending spawn appends one new, uncollected bonus at the struck block's centre, and the spawn is consumed. |
| Game.GameState.MouseDown | game.js:608-624 | Does nothing when not playing or while shooting. Otherwise starts aiming at the clamped pointer angle. |
| Game.GameState.MouseMove | game.js:626-641 | Does nothing unless playing, aiming and not shooting. Otherwise follows the clamped pointer angle. |
| Game.GameState.MouseUp | game.js:643-647 | Launches exactly when playing, aiming and not shooting. Otherwise changes nothing. |

## Left out

- Rendering: all `draw` methods, the HUD and `updateUI`. They are presentation only.
- The `alert`, the DOM writes of `gameOver` and the DOM side of the button handlers. They are I/O; only their effect on the game state is modelled.
- `Particle` and the particle list. Nothing constructs a particle, and they never affect the game state.
- The overlap push-out of `reflectFrom`. It uses a square root on floating point, so a reflection here changes only the velocity and the ball keeps its position. In the game, the push-out moves the ball, and later blocks in the same sweep are tested at the moved position. For example, take two blocks side by side at x 100-110 and 110-120 and y 200-210, and a ball of radius 6 at (109, 214). Hitting the first block pushes the ball to (109, 216), which then misses the second; the model still hits it. The push-out can also cause a hit the model misses: take Normal blocks A at (100, 200) and B at (100, 220), both with 2 hit-points, and a ball of radius 6 at (105, 214). It hits A and is pushed to (105, 216), where it also hits B; in the model it stays at (105, 214), exactly 6 from B, and B is untouched. `Physics.StrikeIgnoresVelocity`, `Physics.CollideBlockwise`, `Physics.CollideScore`, the untouched-block clause of `Physics.SweepSparesWalls` and the position clause of `Physics.CollideKeeps` hold only because of this simplification, and are not statements about the game.
- Floating-point rounding. Ball and bonus coordinates and velocities are exact reals, and `Math.PI` is the real 3.141592653589793.
- `getMousePos`, `calculateAngle`, `atan2`, `cos` and `sin`. These are foreign mathematics; their results are parameters of the handlers.
- `Math.random`. Its results are parameters, and randomness itself is not modelled.
- The timing of host timers, `requestAnimationFrame` and the `gameLoop`. The host decides when a tick, a launch firing or a bonus spawn happens; the model states what each of them does.
- FireSpawnTimer: the bonus appears at the centre the struck block had when it was struck. The game reads the block's position 100 ms later, which differs only if the board descends within those 100 ms.
- Block identity. Blocks are values in the board sequence, so an in-place `block.hp -= 1` or `moveDown` replaces that element.
- Game.GameState.Update: the contract states the idle case and the invariant. The playing case is the composition of the `UpdateBalls`, `UpdateFallingBalls` and `CheckAllBallsReturned` contracts, which are stated in full.
