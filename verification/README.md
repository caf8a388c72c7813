# Lane racer game loop, modelled in Dafny

This project models the simulation core of a browser lane-racing game. The core is
the per-frame `loop` of the `GameCanvas` component plus the helpers that loop calls:

- the rectangle overlap test;
- the traffic, coin and obstacle spawners;
- the particle bursts;
- the run controls (`restartRun`, `togglePause`);
- the keep-if-greater rule of the high score;
- the lane layout;
- the read-only table of six levels.

A frame is a pure transition over an immutable `Game` record. The record holds:

- the player (position, lateral velocity, lives, shield);
- the world (camera, distance, score, spawn timer and interval, speed multiplier, and the four pools: traffic, coins, obstacles, particles);
- the module-wide id counter;
- the level index;
- the pause flags;
- the previous frame's timestamp;
- the stored best score.

Every `Math.random()` call of a frame is a draw in [0, 1) taken from a parameter `rolls: nat -> Draw`. A cursor threads the draws through the frame in call order. Steering input (`left`, `right`, `tilt`), the lane layout and the canvas height are also parameters.

A frame runs the source's five phases in its order:

1. `Loop.SteerBlock`: re-derive the spawn interval, steer, scroll.
2. `Loop.SpawnBlock`: spawn.
3. `Loop.CollideBlock`: move traffic, then coins, obstacles, traffic collisions and particles.
4. `Loop.LevelBlock`: level up.
5. `Loop.GameOver`: game over.

`Loop.Frame` is the frame as one function: the five phases composed in that order. `Loop.Step` runs the phases one method at a time, and its result is exactly `Loop.Frame`. `Loop.Tick` adds the timestamp bookkeeping around it.

Each of the source's reverse-index splice loops is modelled as it is written: a recursion over the index that mutates or removes the element in place. Its contract proves that the result is the front-to-back, order-preserving filter of the mapped pool (`Pools.Filter` over `Pools.Map`). A hit count (`Pools.CountHits`) relates the loop's side effects (score, lives, velocity, particle ids) to the pool.

The main results:

- `Invariant.Valid` holds initially. Every frame and every run control preserves it. It covers:
  - level in range and multiplier at least 1;
  - score and distance non-negative;
  - lateral speed within 420;
  - lives at most 3;
  - the spawn timer below the interval;
  - every particle alive;
  - the menu shown exactly when paused;
  - every live entity carrying its own id below the counter.
- A frame's effect is stated exactly for:
  - the level and the multiplier;
  - the lives: one fewer per obstacle or car hit (`Loop.FrameHits`);
  - the pause state and the best score.
- After a frame with lanes, the player is within the road bounds.
- The collision pass is characterised exactly:
  - survivors are the filtered pools;
  - `+100` per coin;
  - one life per obstacle or car;
  - velocity scaled by 0.4 or 0.2 per hit;
  - `max(0, score - 200)` per car.

Source paths below are relative to the repository root.

## Model

| member | source | states |
|---|---|---|
| Geometry.OverlapSymmetric | src/components/GameCanvas.tsx:229-230 | the overlap test gives the same answer for (a, b) and (b, a) |
| Geometry.SharedEdgeIsNoOverlap | src/components/GameCanvas.tsx:229-230 | the inequalities are strict: rectangles that only touch along an edge do not collide |
| Geometry.OverlapIffSharedPoint | src/components/GameCanvas.tsx:229-230 | for rectangles of positive size, the test holds exactly when they share an interior point (both directions) |
| Levels.LevelAt | src/components/GameCanvas.tsx:341 | the looked-up level is always a row of the table; it is row i (id i + 1) for an index in 0..5 and the first row otherwise |
| Levels.SpawnMultiplierAt | src/components/GameCanvas.tsx:384-386 | the multiplier the spawn chances read is in [1, 2] for every index, with 1 out of range |
| Levels.TrafficSpeedMultiplierAt | src/components/GameCanvas.tsx:242 | the multiplier a new car's speed reads is in [1, 1.6] for every index, with 1 out of range |
| Levels.TableShape | src/components/LevelManager.tsx:13-20 | the table has exactly six levels with ids 1..6 in order, so the last index is 5 |
| Levels.SpawnMultipliersGrow | src/components/LevelManager.tsx:13-20 | spawn multipliers never decrease along the table and lie in [1, 2] |
| Levels.TrafficSpeedsGrow | src/components/LevelManager.tsx:13-20 | traffic-speed multipliers never decrease along the table and are at least 1 |
| Levels.DifficultiesGrow | src/components/LevelManager.tsx:3-20 | difficulty labels never decrease in the order Easy < Normal < Hard < Expert |
| Levels.FallbacksAgree | src/components/GameCanvas.tsx:341-342 | the two fallbacks the loop uses (the first level, or the literal 1) give the same multipliers at every index |
| Lanes.LaneXs | src/components/GameCanvas.tsx:123-130 | the layout has three values, in increasing order for a non-negative width |
| Lanes.LaneXsAreLeftEdges | src/components/GameCanvas.tsx:123-130 | the i-th layout value is the road's left edge plus i lane widths: the left edge of lane i, not its centre |
| Lanes.LaneZeroCarLeavesRoad | src/components/GameCanvas.tsx:237 | for every positive width, a car spawned in lane 0 starts partly left of the drawn road |
| Lanes.LaneCentres | src/components/GameCanvas.tsx:123-130 | the corrected layout: the i-th value is the midpoint of lane i of the drawn road |
| Lanes.CentredCarStaysInLane | src/components/GameCanvas.tsx:556-570 | with the corrected layout, a 64-wide car centred on lane i lies between that lane's drawn edges once the viewport is at least 291 wide |
| Physics.Accel | src/components/GameCanvas.tsx:345-348 | the two flags cancel when both are held, each adds ∓1400, and the tilt always contributes tilt·1400 |
| Physics.Friction | src/components/GameCanvas.tsx:353-356 | friction reduces the speed by 1800·delta down to 0, and never flips the sign of the velocity |
| Physics.ClampSpeed | src/components/GameCanvas.tsx:359-360 | the result is within ±420; it equals the input inside that range and the nearer bound outside it |
| Physics.DampNeverSpeedsUp | src/components/GameCanvas.tsx:353-356 | over a non-negative time the friction step never raises the lateral speed and never flips the velocity's sign |
| Physics.KeepOnRoad | src/components/GameCanvas.tsx:365-370 | with lanes, x ends within [lanes[0] - 120, lanes[last] + 120] and is left alone inside that range; without lanes it is left alone |
| Physics.SteeredVelocity | src/components/GameCanvas.tsx:350-360 | after acceleration, idle friction and the clamp, the lateral speed is at most 420 |
| Physics.IdleNeverSpeedsUp | src/components/GameCanvas.tsx:348-360 | an idle tick never increases the lateral speed, even though a dead-zone tilt still pushes |
| Physics.Lateral | src/components/GameCanvas.tsx:344-370 | only x and the velocity change; with lanes, x ends within [lanes[0] - 120, lanes[last] + 120] and is left unclamped inside it; without lanes x just integrates |
| Physics.IdleFrictionScenario | src/components/GameCanvas.tsx:353-360 | at 16 ms with no input, friction takes 500 down to 471.2, and the cap then brings it to 420 |
| Physics.DeadZoneTiltStillAccelerates | src/components/GameCanvas.tsx:348-353 | a tilt of 0.01 is idle (friction on) yet still accelerates by 14 |
| Spawning.SpawnInterval | src/components/GameCanvas.tsx:342 | the interval is at least 220 (in fact within [550, 1100]) and equals 1100 divided by the level's spawn multiplier |
| Spawning.TrafficChance | src/components/GameCanvas.tsx:384 | the chance per attempt of a car is within [0.38, 0.48], so the 0.95 cap never binds |
| Spawning.CoinChance | src/components/GameCanvas.tsx:385 | the chance per attempt of a coin is within [0.2, 0.22] |
| Spawning.ObstacleChance | src/components/GameCanvas.tsx:386 | the chance per attempt of an obstacle is within [0.15, 0.18] |
| Spawning.LaneIndex | src/components/GameCanvas.tsx:236 | the lane chosen from a draw is always a valid index |
| Spawning.SpeedBounds | src/components/GameCanvas.tsx:239-243 | a new car's speed lies between 1 and 1.18 times base × level multiplier × run multiplier |
| Spawning.SpawnTraffic | src/components/GameCanvas.tsx:233-254 | with no lanes nothing changes and no draw is made. Otherwise exactly one car is appended. The car has the counter's id, a valid lane, x 32 left of that lane's value, y in (-320, -140], a 64 x 110 size and a bounded speed. Four draws are used and nothing else changes |
| Spawning.SpawnCoin | src/components/GameCanvas.tsx:255-262 | with no lanes nothing changes; otherwise exactly one coin with the counter's id is appended, on a lane's x with y in (-260, -100], using two draws |
| Spawning.SpawnObstacle | src/components/GameCanvas.tsx:263-270 | with no lanes nothing changes; otherwise exactly one 56 x 28 obstacle with the counter's id is appended, 28 left of a lane's x with y in (-360, -120], using two draws |
| Spawning.TryTraffic | src/components/GameCanvas.tsx:384 | the car pool grows by one exactly when the draw is under the chance and lanes exist; the other pools are untouched |
| Spawning.TryCoin | src/components/GameCanvas.tsx:385 | the coin pool grows by one exactly when the draw is under the chance and lanes exist; the other pools are untouched |
| Spawning.TryObstacle | src/components/GameCanvas.tsx:386 | the obstacle pool grows by one exactly when the draw is under the chance and lanes exist; the other pools are untouched |
| Spawning.Attempt | src/components/GameCanvas.tsx:383-387 | one pass grows each pool by one exactly when its own draw hits; the counter advances by the number spawned |
| Spawning.SpawnStage | src/components/GameCanvas.tsx:379-388 | below the interval, only the timer grows by dt. Once it is reached, the timer resets to 0 and the result is exactly the attempt loop run from the next draw, with two attempts when the first draw is below 0.18 and one otherwise; the pools only grow, each by at most two |
| Spawning.AttemptsGrow | src/components/GameCanvas.tsx:383-387 | over the whole loop the pools only grow, each by at most the count, and with no lanes only the draw cursor moves |
| Spawning.AttemptsKeepFresh | src/components/GameCanvas.tsx:247 | every spawned id is new: the loop keeps all ids distinct, ascending per pool and below the counter |
| Spawning.SpawnStageKeepsFresh | src/components/GameCanvas.tsx:379-388 | the spawn block keeps every id distinct and below the counter |
| Spawning.NoLanesNoSpawns | src/components/GameCanvas.tsx:234-235 | with no lanes the spawn block adds nothing to any pool and leaves the counter alone |
| Particles.Spark | src/components/GameCanvas.tsx:275-284 | a particle starts at the burst point with horizontal speed in [-150, 150), upward speed in [-450, -150), life in [0.5, 1.1) and size in [3, 9) |
| Particles.Emit | src/components/GameCanvas.tsx:273-286 | a burst of n appends exactly n particles with consecutive ids from the counter, each with at least 0.5 s of life. The counter advances by n, 4n draws are used, and nothing else changes |
| Particles.EmitSparks | src/components/GameCanvas.tsx:274-285 | the i-th particle of a burst is built from the counter's i-th value and the i-th group of four draws |
| Particles.ExtendsIds | src/components/GameCanvas.tsx:276 | after a burst, the particle ids are the old ids followed by the counter's block |
| Particles.ExtendsAlive | src/components/GameCanvas.tsx:281 | a burst added to live particles leaves every particle alive |
| Particles.Age | src/components/GameCanvas.tsx:450-453 | a particle loses delta of life, its position moves by its old velocity times delta, and gravity then adds 400·delta to its vertical speed |
| Particles.ParticleLoop | src/components/GameCanvas.tsx:448-455 | the reverse splice loop leaves the processed part equal to the order-preserving filter of the aged particles still alive |
| Particles.UpdateParticles | src/components/GameCanvas.tsx:448-455 | the particles after a tick are exactly the aged particles whose life is still positive, in order |
| Particles.ParticlesAged | src/components/GameCanvas.tsx:448-455 | every survivor is alive and is an original particle aged by delta. Every particle with more than delta of life survives. Ids keep their order and none is new |
| Pools.SpliceStep | src/components/GameCanvas.tsx:391-394 | one step of a reverse splice loop (in-place update or `splice(i, 1)`) moves one element into the filtered part, and its hit is counted once |
| Pools.FreshIdsUnique | src/components/GameCanvas.tsx:52 | under the counter discipline no id occurs twice in any pool or across pools |
| Pools.AppendFresh | src/components/GameCanvas.tsx:247 | appending the counter's next values to one pool, and advancing the counter, keeps every id unique |
| Collisions.CollectCoin | src/components/GameCanvas.tsx:403-408 | a collected coin adds exactly 100 points and a burst of 12 particles; lives and lateral velocity are unchanged |
| Collisions.HitObstacle | src/components/GameCanvas.tsx:419-425 | an obstacle hit costs exactly one life and scales the velocity by 0.4; it bursts 16 particles and the score is unchanged |
| Collisions.HitCar | src/components/GameCanvas.tsx:436-443 | a car hit costs exactly one life, scales the velocity by 0.2, applies `max(0, score - 200)` and bursts 18 particles |
| Collisions.Penalise | src/components/GameCanvas.tsx:440 | the penalised score is never negative: 200 less, or 0 when the score is below 200 |
| Collisions.PenaltyClosedForm | src/components/GameCanvas.tsx:440 | n crashes in one frame take 200·n off the score, floored once at 0 |
| Collisions.DriveLoop | src/components/GameCanvas.tsx:391-395 | the reverse loop leaves the processed part equal to the order-preserving filter of the moved cars above the cull line |
| Collisions.DriveTraffic | src/components/GameCanvas.tsx:391-395 | traffic after moving is exactly the moved cars within 200 below the bottom edge, in order |
| Collisions.CarsDriven | src/components/GameCanvas.tsx:391-395 | no surviving car is past the cull line. Every survivor is a moved car, and every moved car within the line survives. Ids keep their order and none is new |
| Collisions.CoinLoop | src/components/GameCanvas.tsx:398-411 | the reverse loop keeps exactly the fallen coins that were neither collected nor culled; each collected coin adds 100 points and 12 ids; lives and velocity are unchanged |
| Collisions.CollectCoins | src/components/GameCanvas.tsx:398-411 | the whole coin pass: survivors are the filtered fallen coins. Score rises by 100 per collected coin, and particles are only appended |
| Collisions.CoinsKept | src/components/GameCanvas.tsx:403-410 | no surviving coin overlaps the player or is more than 80 below the edge. A fallen coin that does neither survives. Ids keep their order |
| Collisions.ObstacleLoop | src/components/GameCanvas.tsx:414-429 | the reverse loop keeps exactly the fallen obstacles neither hit nor culled. Each hit costs one life and 16 ids, and the score is unchanged |
| Collisions.ObstacleLoopVelocity | src/components/GameCanvas.tsx:421 | each obstacle hit scales the lateral velocity by 0.4 in turn |
| Collisions.HitObstacles | src/components/GameCanvas.tsx:414-429 | the whole obstacle pass: survivors are the filtered fallen obstacles. Lives fall by the number hit, the velocity is scaled by 0.4 per hit, and the score is unchanged |
| Collisions.ObstaclesKept | src/components/GameCanvas.tsx:419-427 | no surviving obstacle overlaps the player or is more than 120 below the edge, and a dropped obstacle that does neither survives; ids keep their order and none is new |
| Collisions.CrashLoop | src/components/GameCanvas.tsx:432-445 | the reverse loop keeps exactly the cars the player does not overlap; each hit costs one life and 18 ids |
| Collisions.CrashLoopVelocity | src/components/GameCanvas.tsx:438-440 | each car hit scales the velocity by 0.2 and applies the 200-point penalty in turn |
| Collisions.CrashTraffic | src/components/GameCanvas.tsx:432-445 | the whole traffic-collision pass: survivors are the cars not overlapping the player. Lives fall by the number hit, the velocity is scaled by 0.2 per hit, and the score is penalised per hit and stays non-negative |
| Collisions.CarsKept | src/components/GameCanvas.tsx:432-445 | after the pass no car overlaps the player, and every car that did not overlap is still there |
| Collisions.CoinLoopExtends | src/components/GameCanvas.tsx:405 | the coin loop only appends particle bursts with fresh ids from the counter |
| Collisions.ObstacleLoopExtends | src/components/GameCanvas.tsx:423 | the obstacle loop only appends particle bursts with fresh ids from the counter |
| Collisions.CrashLoopExtends | src/components/GameCanvas.tsx:442 | the traffic-collision loop only appends particle bursts with fresh ids from the counter |
| State.Initial | src/components/GameCanvas.tsx:80-98 | the mounted state has 3 lives, score 0, empty pools, is not paused, and its ids are trivially unique |
| State.WithEffects | src/components/GameCanvas.tsx:404-442 | writing the loops' effects back into the game and reading them out again gives the same effects |
| Loop.FrameDt | src/components/GameCanvas.tsx:335-338 | dt is at most 40 ms. It is 0 on the first frame, and also when the stored time is 0. Otherwise it is the elapsed time, capped at 40 |
| Loop.FrameDtBounds | src/components/GameCanvas.tsx:335-336 | with a clock that never runs backwards, dt lies in [0, 40] |
| Loop.ForwardSpeed | src/components/GameCanvas.tsx:373 | the forward speed is non-negative for a non-negative multiplier and level |
| Loop.Steer | src/components/GameCanvas.tsx:341-376 | only the player and world change. The interval is re-derived from the level and the player moves laterally. The camera moves by the scroll (forward speed × delta); the distance grows by the scroll's floor and the score by the floor of 6% of it |
| Loop.SteerMovesForward | src/components/GameCanvas.tsx:373-376 | scrolling never lowers the camera, the distance or the score |
| Loop.SpawnPhase | src/components/GameCanvas.tsx:379-388 | only the timer, the three pools and the counter change; below the interval only the timer grows by dt. At it the timer resets to 0, and the pools, the counter and the cursor are exactly those of the one or two attempts the first draw selects |
| Loop.CollidePhase | src/components/GameCanvas.tsx:390-455 | only velocity, lives, score, pools and counter change. Lives fall by one per obstacle and car hit. The counter advances by 12, 16 and 18 per coin, obstacle and car. Every particle left is alive |
| Loop.CollideScore | src/components/GameCanvas.tsx:398-445 | the score after collisions is the car penalty applied to the score plus 100 per coin, so a non-negative score stays non-negative. The velocity is scaled by 0.4 per obstacle, then by 0.2 per car |
| Loop.HitsCostLives | src/components/GameCanvas.tsx:419-468 | lives fall by exactly the hits, and a running game ends exactly when the hits reach its lives |
| Loop.LevelUpSparks | src/components/GameCanvas.tsx:461 | the level-up burst appends 20 particles with fresh ids from the counter |
| Loop.LevelPhase | src/components/GameCanvas.tsx:457-462 | without the level-up condition nothing changes. With it, the level rises by one, the multiplier by 0.12 and the counter by the 20 burst ids; nothing but the level, counter, multiplier and particles changes |
| Loop.SaveHighScore | src/components/GameCanvas.tsx:289-297 | the stored best is the old best or the score, whichever is greater |
| Loop.SaveHighScoreIdempotent | src/components/GameCanvas.tsx:293 | saving the same score twice is saving it once, and the stored best does not depend on the order in which two scores are saved |
| Loop.GameOver | src/components/GameCanvas.tsx:464-468 | a game with lives left is unchanged |
| Loop.Restart | src/components/GameCanvas.tsx:299-315 | all four pools are empty after a restart |
| Loop.RestartIsInitialButLevel | src/components/GameCanvas.tsx:299-315 | a restart is the mounted state, except for what `restartRun` does not touch: level, position, id counter, spawn interval, stored best |
| Loop.RestartValid | src/components/GameCanvas.tsx:299-315 | restarting a valid game gives a valid game |
| Loop.TogglePause | src/components/GameCanvas.tsx:317-323 | the pause flag flips, the menu shows exactly when paused, and nothing else changes |
| Loop.TogglePauseTwice | src/components/GameCanvas.tsx:317-323 | toggling twice restores the game when the menu showed exactly when paused |
| Loop.TogglePauseValid | src/components/GameCanvas.tsx:317-323 | toggling keeps the invariant |
| Loop.InitialValid | src/components/GameCanvas.tsx:80-98 | the mounted state satisfies the invariant |
| Loop.TwoCarGameHits | src/components/GameCanvas.tsx:391-445 | in a frame of length 0 on an 800-high canvas, a game with the scenario's player and two cars and no obstacles hits both cars and no obstacle |
| Loop.StillSteer | src/components/GameCanvas.tsx:341-376 | in a frame of length 0 with no lanes, a resting player whose interval already matches the level is left exactly as it was by the steer phase |
| Loop.FirstFrameDoubleCrash | src/components/GameCanvas.tsx:335-468 | on the first tick of the two-car scenario with no lanes, dt is 0, yet the whole frame still runs. For any input and any draws, the one-life player ends at -1 lives and the game is over |
| Loop.SteerCore | src/components/GameCanvas.tsx:341-376 | steering and scrolling keep the invariant's core |
| Loop.SpawnPhaseValid | src/components/GameCanvas.tsx:379-388 | after the spawn block the timer is again below the interval and ids stay unique |
| Loop.CollideKeepsIds | src/components/GameCanvas.tsx:390-455 | the collision pass keeps every id unique and below the counter |
| Loop.CollideValid | src/components/GameCanvas.tsx:390-455 | the collision pass keeps the invariant, including a non-negative score and the speed cap |
| Loop.BurstKeepsIds | src/components/GameCanvas.tsx:273-286 | a burst written back into a game keeps every id unique |
| Loop.LevelPhaseKeepsIds | src/components/GameCanvas.tsx:461 | the level-up burst keeps every id unique |
| Loop.LevelPhaseKeepsAlive | src/components/GameCanvas.tsx:461 | the level-up burst adds only particles with life left |
| Loop.LevelPhaseValid | src/components/GameCanvas.tsx:457-462 | the level-up keeps the level within the table and the invariant |
| Loop.GameOverValid | src/components/GameCanvas.tsx:464-468 | game over keeps the invariant: it pauses and shows the menu together |
| Loop.Frame | src/components/GameCanvas.tsx:334-469 | a paused game is unchanged. Otherwise lives fall by exactly the obstacles and cars hit, with lanes the player ends within the road bounds, and the game pauses exactly when no lives are left |
| Loop.FrameOfPhases | src/components/GameCanvas.tsx:341-468 | a running frame is exactly steer, spawn, collide, level up and game over, composed in the source's order |
| Loop.SteerBlock | src/components/GameCanvas.tsx:341-376 | the result is the steer phase. Lives and multiplier are unchanged, the invariant's core is kept, and distance and score do not fall |
| Loop.SpawnBlock | src/components/GameCanvas.tsx:378-388 | the result is the spawn phase. Only the world and the counter change, distance and score are unchanged, and the invariant is restored |
| Loop.CollideBlock | src/components/GameCanvas.tsx:390-455 | the result is the collision phase. Level, pause state, distance and multiplier are unchanged, lives never rise, and the invariant is kept |
| Loop.LevelBlock | src/components/GameCanvas.tsx:457-462 | the result is the level-up phase. The level rises by one exactly when the distance has passed (level + 1)·3000 below the last level, and the multiplier grows by 0.12 with it |
| Loop.Step | src/components/GameCanvas.tsx:334-469 | covers one frame of the loop, as follows. The result is exactly `Loop.Frame`. A paused game is unchanged. A frame of non-negative length keeps the invariant and never lowers the distance. The level rises by at most one, exactly when the distance passed the next threshold, and the multiplier grows with it. Lives fall by exactly the obstacles and cars hit. With lanes the player ends within the road bounds. The game pauses, shows the menu and saves the best exactly when the lives are gone |
| Loop.Tick | src/components/GameCanvas.tsx:334-338 | the result is the frame of the measured dt, run on the game with the new timestamp. The timestamp is stored even while paused, and a paused tick changes nothing else; with a monotone clock every tick keeps the invariant |

## Left out

- Rendering is not modelled. This covers `renderFrame`, the road, roadside, car, coin, obstacle and HUD drawing, and the debug overlay. Only the road's geometry is used, to state the lane finding.
- Camera shake is not modelled: it only feeds rendering.
- Audio is not modelled. Its refs are always null, and the mute flag only gates it.
- Input wiring is not modelled: resize and device-pixel-ratio setup, the keyboard, touch and device-orientation handlers, and the tilt sensitivity clamp. The frame takes `left`, `right` and `tilt` as a parameter. The resize handler's placement of the player is not modelled: the position is part of the state.
- `requestAnimationFrame` scheduling and effect teardown are not modelled. Neither are React's asynchronous state updates. The level-up is applied synchronously as `min(level + 1, 5)` under the source's condition. The source instead re-creates the loop when the level state changes.
- `localStorage` is not modelled. The stored best is an integer in the state, and `Loop.SaveHighScore` applies the keep-if-greater rule. Parsing a missing or malformed stored value is not modelled.
- Random generation is not modelled. Draws come from `rolls`. The traffic palette draw is still consumed, but colours (traffic palette, particle colours) are not stored.
- Levels.Level: the level's free-text `description` is not modelled.
- Arithmetic is exact over `real` instead of IEEE doubles, and `Math.floor` is `.Floor`. Rounding and overflow of doubles are not modelled.
- The canvas height and the lane layout are parameters of a frame. Either `Lanes.LaneXs` or `Lanes.LaneCentres` can drive it.
- Loop.Step, Loop.SteerBlock, Loop.SpawnBlock, Loop.CollideBlock and Loop.LevelBlock are methods. A caller sees only their contracts, not their bodies.
- Loop.Frame states the velocity and score of a whole frame only through its phases: the arithmetic is stated per phase by `Loop.Steer`, `Loop.CollideScore` and `Physics.Lateral`, and `Loop.FrameOfPhases` composes them.
- Loop.LevelPhase does not state the burst's particles in its own contract. They are stated by `Loop.LevelUpSparks` and `Loop.LevelPhaseKeepsAlive`.
- Loop.GameOver and Loop.Restart state only part of their effect in their own contracts. The rest is stated by `Loop.Step`, `Loop.GameOverValid` and `Loop.RestartIsInitialButLevel`.
- The first frame is modelled as the code runs it. The timestamp is null, so dt is 0, but the whole pipeline still runs and collisions and a level-up can still happen. A stored timestamp of exactly 0 is treated as null.
- Lives are never clamped, as in the code. Two hits in one frame take them below 0 (`Loop.FirstFrameDoubleCrash`).

## Findings

| source | as written | input that shows it | evidently intended | confidence | as-written member | corrected member |
|---|---|---|---|---|---|---|
| src/components/GameCanvas.tsx:123-130 | the lane values are `centerX - 1.5·laneW`, `centerX - 0.5·laneW` and `centerX + 0.5·laneW`. These are the road's left edge and its two drawn dividers (road at `(w - 0.66w)/2`, dividers every `0.22w`, lines 525-527 and 556-570). Every entity is centred on such a value | any viewport width w > 0 when devicePixelRatio is at most 2 and w·ratio is at least 100 (resize clamps the ratio at 2 and the canvas at 100 px, lines 117-118; `renderFrame` divides by the unclamped ratio, lines 488-489, so the drawn width is w up to the sub-pixel floor): lane 0 is at 0.17w, the road's left edge, so a car spawned there (x = lane - 32) starts 32 px left of the road | the lane centres `centerX - laneW`, `centerX`, `centerX + laneW` | medium; not executed | Lanes.LaneXs, Lanes.LaneXsAreLeftEdges, Lanes.LaneZeroCarLeavesRoad | Lanes.LaneCentres, Lanes.CentredCarStaysInLane |
