# Street Racer: the simulation core in Dafny

Street Racer is a browser game in which a car drives up a three-lane road. The
player steers between lanes to dodge obstacle cars coming down the canvas. The
game gets harder over time, and a persisted high score is kept. All of the game
is in `script.js`. This project models its per-frame simulation and the state
around it. The frame loop `loop` is split into its phases:

- frame-delta cap
- difficulty growth and forward speed
- obstacle spawning
- debounced and swipe steering
- the car's slide toward its lane
- the backward obstacle loop that advances, collision-tests and culls
- distance and score accrual

The model also covers the lifecycle commands (`startGame`, `restart`,
`pauseGame`, `resumeGame`, `togglePause`), the layout of the car, and the two
timer callbacks: clearing a steering debounce flag, and reporting a crash to
the high score.

Modules:

- `Geometry`: the rectangle record and the overlap test `rectsIntersect`.
- `Difficulty`: `clamp`, the 0.05 s cap on the frame delta, speed-factor growth,
  the clamped forward speed, and the spawn interval. It also defines the spawn
  schedule of a run, `IntervalAfter`, by recursion on the number of spawns;
  the lemma `IntervalAfterClosedForm` gives its closed form.
- `Lanes`: `laneToX`, discrete lane steps, the per-direction debounce, swipes,
  and the slide of `player.x` toward `player.targetX`.
- `Obstacles`: the obstacle record, and `spawnObstacle` with its random draws
  passed in as parameters. It also holds the obstacle pass of a frame as
  specification functions: `Advanced` moves every obstacle, `OnField` keeps
  those within the cull limit, and `HitAmong` tests them for a collision.
- `Simulation`:
  - `Player` holds the fields of the `player` object.
  - `Game` holds the module-level globals. It owns the player, and its methods
    update both in place.
  - `Game.Step` is one call of `loop`. `Game.MoveObstacles` is the `for` loop at
    `script.js:221-245`, proved against `Pass`.
  - Obstacles are values, since nothing else holds a reference to them.
    `MoveObstacles` therefore edits and splices a local copy of the array, then
    writes it back. The crash fields are updated in place inside the loop, as
    in the code.

`Game` keeps an invariant, `Valid()`, with these parts:

- the lane is in range and `targetX == laneToX(lane)`;
- every obstacle has the ranges a spawn gives it;
- the spawn interval is `IntervalAfter(spawns)`, the schedule's value after the
  run's spawns so far; the ghost counter `spawns` counts them. The schedule
  lemmas therefore apply to the game state. In particular, the interval stays
  within [0.45, 1.0] s;
- `score == Points(distance)`, that is 0.02 × distance;
- a crash stops the run, and happens at most once per run. The ghost counter
  `crashes` tracks this.

Behaviours of the code that the model follows as written:

- `restart` only stops the run. Every per-run value is reset by `startGame`;
  braking, the debounce flags and the high score carry over, so the first
  frame of a new run takes its speed from the previous run's braking state.
- The frame that crashes still runs to its end. Later obstacles are advanced
  and culled, and distance and score accrue. Only frames after it are no-ops.
- The speed of a frame uses the braking state set by the previous frame, since
  `script.js:201` runs before `script.js:214`.
- An obstacle's `x` is `laneToX` of its lane, which centres a car of the
  player's width. A wider or narrower obstacle is therefore not centred.
- `pauseGame` and `resumeGame` have no guard; only `togglePause` checks
  `running`.
- The high score is updated in the crash callback 250 ms later. It uses the
  score at the time the callback runs.
- The slide factor is `clamp(dt * 10, 0, 1)` and `dt` is at most 0.05 s. The
  factor is therefore at most 0.5, and the car never reaches a target it did
  not start at within one frame. A snap would need `dt * 10 >= 1`, which
  `Lanes.SlideApproaches` shows gives the target exactly.

## Model

| member | source | states |
|---|---|---|
| Geometry.RectsIntersect | script.js:187-189 | the overlap test itself; its meaning is given by IntersectIffCommonPoint, with symmetry and touching edges by IntersectSymmetric and TouchingRectsIntersect |
| Geometry.IntersectSymmetric | script.js:187-189 | the overlap test gives the same answer with its arguments swapped |
| Geometry.TouchingRectsIntersect | script.js:187-189 | rectangles that only share an edge or a corner count as intersecting: contact along a vertical or horizontal edge, whose shared stretch may shrink to a corner |
| Geometry.EdgeAndCornerContactTouch | script.js:187-189 | both side-by-side rectangles sharing an edge at the same height and rectangles meeting only at a corner are Touching, so TouchingRectsIntersect covers them |
| Geometry.IntersectReflexive | script.js:187-189 | every rectangle with non-negative extent intersects itself |
| Geometry.IntersectIffCommonPoint | script.js:187-189 | two well-formed rectangles pass the test exactly when some point lies in both, edges included |
| Difficulty.Clamp | script.js:100 | the result lies in [lo, hi]; it equals v inside the range, lo below it and hi above it |
| Difficulty.FrameDelta | script.js:197 | the frame delta is at most 0.05 s; a delta at or below the cap is kept; a non-negative delta never grows |
| Difficulty.NextSpeedFactor | script.js:200 | the speed factor never decreases and strictly grows on a frame of positive length; one frame adds at most 0.05 * 0.02 |
| Difficulty.CurrentSpeed | script.js:201 | the forward speed is always within [200, 1200]; it equals 220 * speedFactor * (0.6 if braking) whenever that is in range, 200 below the range and 1200 above it |
| Difficulty.SpawnDue | script.js:205 | a spawn is due once the timer reaches the interval; its effect on the state is given by Game.SpawnLogic and Game.Step |
| Difficulty.NextSpawnInterval | script.js:207 | after a spawn the interval lies in [0.45, 1.6] and is no larger than before it |
| Difficulty.IntervalAfterClosedForm | script.js:205-207 | after n spawns of a run the interval is max(0.45, 0.98^n) |
| Difficulty.IntervalAfterBounds | script.js:205-207 | every interval of a run's spawn schedule lies within [0.45, 1.0] |
| Difficulty.IntervalAfterNonIncreasing | script.js:205-207 | later intervals of the schedule are never longer than earlier ones |
| Lanes.ClampInt | script.js:100 | the integer clamp gives a value in [lo, hi], exact inside the range and the nearer bound outside |
| Lanes.LaneWidthFor | script.js:358 | the canvas width without both road paddings, split into three lanes, so the three lanes end exactly at the road's right edge, one padding short of the canvas edge; Lanes.LaneGeometry gives the layout it leads to |
| Lanes.LaneToX | script.js:155-159 | the left edge of a player-sized car centred on lane l; its meaning is given by LaneGeometry |
| Lanes.LaneGeometry | script.js:155-159 | the player's car is centred on its lane; adjacent lanes are one lane width apart; with lanes at least a car wide, the car stays on the road |
| Lanes.StepLane | script.js:161-168 | a steer keeps the lane in [0, 2], moves it by the delta when possible, and leaves it at the edge otherwise |
| Lanes.Debounced | script.js:259-260 | one key-triggered steer through its flag; with the flag set it changes nothing, otherwise it is StepLane. Game.SteerLeftImmediate and Game.SteerRightImmediate are proved against it, and Lanes.HeldKeySteersOnce states its effect over frames |
| Lanes.HeldKeySteersOnce | script.js:258-267 | a one-key abstraction of the frame loop. HoldFor applies Debounced once per frame, with the flag set from the second frame on and no clear in between. Holding a key for n >= 1 frames then changes the lane exactly as its first frame did. It is not stated over repeated Game.Step calls |
| Lanes.SwipeDelta | script.js:93-95 | a swipe steers left exactly when dx < -30 and right exactly when dx > 30, otherwise not at all |
| Lanes.Slide | script.js:218 | one frame of the slide toward targetX; its meaning is given by SlideApproaches, and Game.SlidePlayer is proved against it |
| Lanes.SlideApproaches | script.js:218 | the new x lies between the old x and the target, so the gap never grows; under the frame cap a car off its target does not reach it; a factor of 1 lands on it; a non-positive delta leaves x alone |
| Obstacles.RandRange | script.js:101 | a draw in [0, 1) gives a value in [a, b), or a itself when a == b |
| Obstacles.LaneOf | script.js:172 | the drawn lane lies in [0, 3) and is the floor of draw * 3 |
| Obstacles.Spawned | script.js:170-185 | a new obstacle is in the drawn lane at that lane's x, its size and speed multiplier are within their ranges, and its bottom edge sits 20 above the canvas top |
| Obstacles.Moved | script.js:223 | one obstacle advanced by speed × its multiplier × dt; its meaning is given by MovedAdvances |
| Obstacles.Advanced | script.js:221-223 | every obstacle advanced, in order; its meaning is given by AdvancedAt and AdvancedConcat |
| Obstacles.OnField | script.js:244 | the obstacles not past the cull limit, in order; its meaning is given by OnFieldSound, OnFieldComplete and OnFieldConcat |
| Obstacles.Pass | script.js:221-245 | the obstacle pass of a frame, the advance followed by the cull; its meaning is given by PassKeepsExactly, PassConcat and SurvivorsAdvance, and Game.MoveObstacles is proved against it |
| Obstacles.HitAmong | script.js:225-227 | whether some advanced obstacle meets the player's box; its meaning is given by HitAmongIff |
| Obstacles.MovedAdvances | script.js:223 | an advance changes only y, keeps the spawn ranges, and moves the obstacle strictly down when dt > 0 |
| Obstacles.AdvancedAt | script.js:221-223 | the advance of a sequence has the same length and its k-th element is the k-th obstacle moved |
| Obstacles.OnFieldSound | script.js:244 | culling only drops: every kept obstacle was present and has y within the limit |
| Obstacles.OnFieldComplete | script.js:244 | culling never drops an obstacle whose y is within the limit |
| Obstacles.OnFieldConcat | script.js:244 | culling the concatenation of two sequences gives the two culled sequences concatenated, so relative order is kept |
| Obstacles.AdvancedConcat | script.js:221-223 | advancing the concatenation of two sequences gives the two advanced sequences concatenated |
| Obstacles.SurvivorsAdvance | script.js:221-245 | the pass never grows the collection; each survivor is within the limit, well spawned, and the advance of an obstacle that was there, lying strictly lower when dt > 0 |
| Obstacles.PassKeepsExactly | script.js:221-245 | an obstacle survives the pass if and only if it is the advance of an original obstacle whose new y is within the limit |
| Obstacles.PassConcat | script.js:221-245 | the pass of a concatenation is the concatenation of the passes, so survivors keep their relative order |
| Obstacles.Box | script.js:226 | the obstacle's collision box, its position and size; HitAmongIff tests it against Game.PlayerBox |
| Obstacles.HitAmongIff | script.js:225-227 | the frame has a collision exactly when some advanced obstacle's box intersects the player's box |
| Simulation.Travel | script.js:248 | the distance a frame drives, speed × dt; Game.UpdateScore and Game.Step accrue it |
| Simulation.Points | script.js:249 | the score a distance is worth, 0.02 of it; Game.ClockValid keeps score == Points(distance) |
| Simulation.NewHighScore | script.js:236-237 | the new high score is the larger of the old one and floor(score), so it never decreases |
| Simulation.Player.constructor | script.js:44-55 | the car starts in lane 1, alive, not braking, resting on its target |
| Simulation.Game.constructor | script.js:32-63 | page-load state: initial globals, the car laid out in lane 1, the stored high score, not running, invariant established |
| Simulation.Game.PlayerBox | script.js:225 | the player's collision box, at the car's position with its size; Game.MoveObstacles and Game.Step test the obstacles against it through HitAmong |
| Simulation.Game.LayoutPlayer | script.js:356-362 | the lane width follows the canvas; x and targetX snap to the current lane's position; y sits 30 above the bottom; the invariant holds |
| Simulation.Game.StartGame | script.js:104-124 | a run starts from every initial value (lane 1, snapped car, no obstacles, speed factor 1, interval 1.0, zero distance and score, no spawns yet, alive, running, unpaused); the high score, braking, the debounce flags and pending callbacks are untouched |
| Simulation.Game.ResetRun | script.js:112-120 | the per-run counters, the spawn count included, take their initial values, and the run is marked running and unpaused |
| Simulation.Game.Restart | script.js:126-133 | the run stops and nothing else changes; the invariant holds |
| Simulation.Game.PauseGame | script.js:135-141 | the game is paused, unconditionally; the invariant holds |
| Simulation.Game.ResumeGame | script.js:143-148 | the game is unpaused, unconditionally; the invariant holds |
| Simulation.Game.TogglePause | script.js:150-153 | pause flips while a run is going and is unchanged otherwise |
| Simulation.Game.SteerLeft | script.js:161-164 | the lane steps left, clamped at 0, and the target becomes that lane's position |
| Simulation.Game.SteerRight | script.js:165-168 | the lane steps right, clamped at 2, and the target becomes that lane's position |
| Simulation.Game.SteerLeftImmediate | script.js:258-262 | with the left flag clear: one left steer and the flag set; with it set: the car is untouched |
| Simulation.Game.SteerRightImmediate | script.js:263-267 | with the right flag clear: one right steer and the flag set; with it set: the car is untouched |
| Simulation.Game.ClearLeftHandled | script.js:261 | the left debounce flag is cleared |
| Simulation.Game.ClearRightHandled | script.js:266 | the right debounce flag is cleared |
| Simulation.Game.Swipe | script.js:91-97 | a swipe steers the lane by SwipeDelta(dx) and leaves the car untouched for a drag of 30 or less |
| Simulation.Game.SpawnObstacle | script.js:170-185 | exactly the spawned obstacle is appended to the collection |
| Simulation.Game.MoveObstacles | script.js:221-245 | the backward loop leaves exactly Pass of the old obstacles; the car dies and the run stops exactly when an advanced obstacle hits it, scheduling one crash report; the crash latch holds |
| Simulation.Game.Step | script.js:192-256 | a frame does nothing unless running and unpaused. Otherwise, in terms of the old state: dt is capped; the speed factor grows; at most one spawn, which zeroes the timer, tightens the interval and is counted; debounced steering and braking; the slide; the pass and crash; distance and score grow by speed * dt; the invariant holds; pause, lane width, high score and the car's y do not change |
| Simulation.Game.Prepare | script.js:194-218 | the first half of a frame: capped dt, new speed factor and speed (from the previous braking), spawn, steering, braking and slide, each in terms of the old state |
| Simulation.Game.Resolve | script.js:221-249 | the second half of a frame: the obstacle pass and crash of MoveObstacles, then distance and score accrual, keeping score == 0.02 * distance |
| Simulation.Game.IncreaseDifficulty | script.js:199-201 | the speed factor grows by dt * 0.02 and the speed is CurrentSpeed of the new factor and the current braking state |
| Simulation.Game.SpawnLogic | script.js:203-209 | the timer accrues dt; once it reaches the interval, it is reset to 0, the interval tightens, the spawn is counted and one obstacle is appended, so the interval stays IntervalAfter(spawns); otherwise nothing is spawned |
| Simulation.Game.HandleSteering | script.js:211-214 | a held left key, then a held right key, each steer once through their debounce flags, which end up set; braking follows the brake key |
| Simulation.Game.SlidePlayer | script.js:216-218 | x moves to Slide(x, targetX, dt) |
| Simulation.Game.UpdateScore | script.js:247-249 | distance grows by Travel(speed, dt) and score by Points of that, so score == Points(distance) is kept; neither decreases for non-negative speed and dt |
| Simulation.Game.ReportCrash | script.js:231-241 | the crash callback sets the high score to NewHighScore of the old high score and the current score; it never decreases |

## Left out

- Rendering (`drawScene`, road markings) and DOM work (overlays,
  buttons, score labels). These are presentation only.
- Event listeners and the `keys` map. A frame reads an `Input` of the three
  held actions. For `left`, ArrowLeft or A is held; for `right`, ArrowRight or
  D; for `brake`, Space. The R key and the buttons are the lifecycle methods
  themselves.
- Swipes are modelled by their drag extent `dx` only. Touch bookkeeping is left
  out.
- Persistence:
  - The stored high score is a constructor parameter. The `localStorage` write
    is left out; only the maximum it stores is kept.
  - A stored value that does not parse (`parseInt` giving NaN) is not modelled.
- Timers:
  - `performance.now` is replaced by the raw frame delta `rawDt` passed to
    `Step`.
  - `requestAnimationFrame` is not modelled: the host calls `Step` once per
    frame.
  - The `loop()` calls at the end of `startGame` and `resumeGame` are the
    host's next `Step`.
  - The 140 ms and 250 ms `setTimeout` callbacks are `ClearLeftHandled`,
    `ClearRightHandled` and `ReportCrash`, which the host calls.
- `ClearLeftHandled`, `ClearRightHandled`: may be called at any time. In the
  code, a clear only follows a steer, so the model allows somewhat more
  orderings than the code can produce.
- A second `loop` chain is not modelled. The code starts one when `resumeGame`
  or `startGame` runs while an animation frame is still pending. The model runs
  one `Step` per host frame.
- `resizeCanvas`, and the device-pixel-ratio transform. They only affect the
  drawing surface.
- The player's width and height are the constants 48 and 90. The canvas width
  and height are parameters of `LayoutPlayer`, `StartGame` and `Step`.
- The obstacle colour string is cosmetic.
- Unused state: `player.steerX` and the `particles` array (assigned at
  `script.js:41` and `script.js:113`) are never read.
- IEEE-754 arithmetic:
  - All positions, times and speeds are exact `real` values, so rounding is not
    modelled.
  - `Math.floor` is `.Floor`.
- `Math.random`: `spawnObstacle` calls it six times. The four draws for the
  lane, width, height and speed multiplier are a `Draws` parameter, each
  required to lie in [0, 1). The two colour draws are dropped along with the
  colour.
