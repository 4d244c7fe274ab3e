/** The game state and the per-frame simulation step, with the lifecycle
    commands (start, restart, pause, resume), the steering entry points and
    the timer callbacks the host runs (debounce clear, crash report). */
module Simulation {
  import opened Geometry
  import opened Difficulty
  import opened Lanes
  import opened Obstacles

  /** The key state one frame reads: steer left (ArrowLeft or A), steer right
      (ArrowRight or D), brake (Space). */
  datatype Input = Input(left: bool, right: bool, brake: bool)

  /** Score gained per unit of distance driven. */
  const ScorePerDistance: real := 0.02

  /** Distance driven in dt seconds at the given speed. */
  function Travel(speed: real, dt: real): real {
    speed * dt
  }

  /** The score a distance is worth. */
  function Points(distance: real): real {
    distance * ScorePerDistance
  }

  /** The stored high score after a crash with the given score: the larger of
      the two, the score taken down to a whole number. */
  function NewHighScore(high: int, score: real): (r: int)
    ensures r >= high && r >= score.Floor
    ensures r == high || r == score.Floor
  {
    if score.Floor > high then score.Floor else high
  }

  /** The player's car. Its width, height and slide rate are the constants
      PlayerWidth, PlayerHeight and SteerSpeed. */
  class Player {
    var lane: int
    var x: real
    var y: real
    var targetX: real
    var braking: bool
    var alive: bool

    /** The car in the middle lane, resting on its target position. */
    constructor (x: real, y: real)
      ensures lane == 1 && this.x == x && targetX == x && this.y == y
      ensures !braking && alive
    {
      lane := 1;
      this.x := x;
      targetX := x;
      this.y := y;
      braking := false;
      alive := true;
    }
  }

  class Game {
    const player: Player
    var laneWidth: real
    var speedFactor: real
    var spawnTimer: real
    var spawnInterval: real
    var obstacles: seq<Obstacle>
    var running: bool
    var paused: bool
    var distance: real
    var score: real
    var highScore: int
    /** Debounce flags of the two steer keys. */
    var leftHandled: bool
    var rightHandled: bool
    /** Crash-report callbacks scheduled and not yet run. */
    var pendingReports: nat
    /** Crashes in the current run. */
    ghost var crashes: nat
    /** Spawns in the current run. */
    ghost var spawns: nat

    /** The invariant every operation keeps. */
    ghost predicate Valid()
      reads this`laneWidth, this`obstacles, this`spawnInterval, this`spawns, this`score, this`distance
      reads this`running, this`crashes, player`lane, player`targetX, player`alive
    {
      LaneValid() && ObstaclesValid() && ClockValid() && CrashLatched()
    }

    /** The lane is in range and the target is that lane's position. */
    ghost predicate LaneValid()
      reads this`laneWidth, player`lane, player`targetX
    {
      0 <= player.lane < LaneCount && player.targetX == LaneToX(player.lane, laneWidth)
    }

    ghost predicate ObstaclesValid()
      reads this`obstacles
    {
      forall o :: o in obstacles ==> WellSpawned(o)
    }

    /** The spawn interval is the run's schedule after its spawns so far, so
        within [0.45 s, 1.0 s], and the score is a fixed fraction of the
        distance. */
    ghost predicate ClockValid()
      reads this`spawnInterval, this`spawns, this`score, this`distance
    {
      && MinSpawnInterval <= spawnInterval <= InitialSpawnInterval
      && spawnInterval == IntervalAfter(spawns)
      && score == Points(distance)
    }

    /** A crash ends the run and happens at most once per run. */
    ghost predicate CrashLatched()
      reads this`running, this`crashes, player`alive
    {
      (!player.alive ==> !running) && crashes == (if player.alive then 0 else 1)
    }

    /** The player's collision box. */
    function PlayerBox(): Rect
      reads player
    {
      Rect(player.x, player.y, PlayerWidth, PlayerHeight)
    }

    /** The state when the page loads: the initial globals, the car laid out
        in the middle lane, the stored high score, not running. */
    constructor (canvasWidth: real, canvasHeight: real, storedHighScore: int)
      ensures Valid() && fresh(player)
      ensures laneWidth == LaneWidthFor(canvasWidth)
      ensures player.lane == 1 && player.x == player.targetX == LaneToX(1, laneWidth)
      ensures player.y == canvasHeight - PlayerHeight - PlayerBottomGap
      ensures !player.braking && player.alive
      ensures speedFactor == 1.0 && spawnTimer == 0.0 && spawnInterval == InitialSpawnInterval
      ensures obstacles == [] && !running && !paused && distance == 0.0 && score == 0.0
      ensures highScore == storedHighScore
      ensures !leftHandled && !rightHandled && pendingReports == 0
    {
      laneWidth := LaneWidthFor(canvasWidth);
      player := new Player(LaneToX(1, LaneWidthFor(canvasWidth)), canvasHeight - PlayerHeight - PlayerBottomGap);
      speedFactor := 1.0;
      spawnTimer := 0.0;
      spawnInterval := InitialSpawnInterval;
      obstacles := [];
      running := false;
      paused := false;
      distance := 0.0;
      score := 0.0;
      highScore := storedHighScore;
      leftHandled := false;
      rightHandled := false;
      pendingReports := 0;
      crashes := 0;
      spawns := 0;
    }

    /** Recomputes the lane width from the canvas and puts the car on its
        lane, snapping x to the target. */
    method LayoutPlayer(canvasWidth: real, canvasHeight: real)
      requires Valid()
      modifies this`laneWidth, player`x, player`targetX, player`y
      ensures Valid()
      ensures laneWidth == LaneWidthFor(canvasWidth)
      ensures player.x == player.targetX == LaneToX(player.lane, laneWidth)
      ensures player.y == canvasHeight - PlayerHeight - PlayerBottomGap
    {
      laneWidth := LaneWidthFor(canvasWidth);
      player.x := LaneToX(player.lane, laneWidth);
      player.targetX := player.x;
      player.y := canvasHeight - PlayerHeight - PlayerBottomGap;
    }

    /** Starts a run: every per-run value goes back to its initial value.
        Braking, the debounce flags, the high score and scheduled callbacks
        are left as they are. */
    method StartGame(canvasWidth: real, canvasHeight: real)
      requires Valid()
      modifies this, player
      ensures Valid()
      ensures laneWidth == LaneWidthFor(canvasWidth)
      ensures player.lane == 1 && player.x == player.targetX == LaneToX(1, laneWidth)
      ensures player.y == canvasHeight - PlayerHeight - PlayerBottomGap
      ensures player.alive && player.braking == old(player.braking)
      ensures obstacles == [] && spawnTimer == 0.0 && speedFactor == 1.0
      ensures spawnInterval == InitialSpawnInterval && spawns == 0
      ensures distance == 0.0 && score == 0.0 && running && !paused
      ensures highScore == old(highScore) && pendingReports == old(pendingReports)
      ensures leftHandled == old(leftHandled) && rightHandled == old(rightHandled)
    {
      laneWidth := LaneWidthFor(canvasWidth);
      player.lane := 1;
      player.x := LaneToX(player.lane, laneWidth);
      player.targetX := player.x;
      player.y := canvasHeight - PlayerHeight - PlayerBottomGap;
      player.alive := true;
      ResetRun();
    }

    /** The per-run counters of StartGame back at their initial values, the
        run started. */
    method ResetRun()
      modifies this`obstacles, this`spawnTimer, this`speedFactor, this`spawnInterval
      modifies this`distance, this`score, this`running, this`paused, this`crashes, this`spawns
      ensures obstacles == [] && spawnTimer == 0.0 && speedFactor == 1.0
      ensures spawnInterval == InitialSpawnInterval && spawns == 0
      ensures distance == 0.0 && score == 0.0 && running && !paused && crashes == 0
    {
      obstacles := [];
      spawnTimer := 0.0;
      speedFactor := 1.0;
      spawnInterval := InitialSpawnInterval;
      distance := 0.0;
      score := 0.0;
      running := true;
      paused := false;
      crashes := 0;
      spawns := 0;
    }

    /** Stops the run and shows the start overlay; nothing is reset. */
    method Restart()
      requires Valid()
      modifies this`running
      ensures Valid() && !running
    {
      running := false;
    }

    method PauseGame()
      requires Valid()
      modifies this`paused
      ensures Valid() && paused
    {
      paused := true;
    }

    method ResumeGame()
      requires Valid()
      modifies this`paused
      ensures Valid() && !paused
    {
      paused := false;
    }

    /** Flips pause while a run is going; does nothing otherwise. */
    method TogglePause()
      requires Valid()
      modifies this`paused
      ensures Valid()
      ensures paused == (if old(running) then !old(paused) else old(paused))
    {
      if !running {
        return;
      }
      if paused {
        ResumeGame();
      } else {
        PauseGame();
      }
    }

    method SteerLeft()
      requires LaneValid()
      modifies player`lane, player`targetX
      ensures LaneValid()
      ensures player.lane == StepLane(old(player.lane), -1)
      ensures player.targetX == LaneToX(player.lane, laneWidth)
    {
      player.lane := StepLane(player.lane, -1);
      player.targetX := LaneToX(player.lane, laneWidth);
    }

    method SteerRight()
      requires LaneValid()
      modifies player`lane, player`targetX
      ensures LaneValid()
      ensures player.lane == StepLane(old(player.lane), 1)
      ensures player.targetX == LaneToX(player.lane, laneWidth)
    {
      player.lane := StepLane(player.lane, 1);
      player.targetX := LaneToX(player.lane, laneWidth);
    }

    /** A held left key: one steer unless the flag is already set; the flag is
        set either way. */
    method SteerLeftImmediate()
      requires LaneValid()
      modifies this`leftHandled, player`lane, player`targetX
      ensures LaneValid() && leftHandled
      ensures player.lane == Debounced(old(player.lane), old(leftHandled), -1)
      ensures old(leftHandled) ==> unchanged(player)
    {
      if leftHandled {
        return;
      }
      SteerLeft();
      leftHandled := true;
    }

    method SteerRightImmediate()
      requires LaneValid()
      modifies this`rightHandled, player`lane, player`targetX
      ensures LaneValid() && rightHandled
      ensures player.lane == Debounced(old(player.lane), old(rightHandled), 1)
      ensures old(rightHandled) ==> unchanged(player)
    {
      if rightHandled {
        return;
      }
      SteerRight();
      rightHandled := true;
    }

    /** The debounce timer of the left key fires. */
    method ClearLeftHandled()
      requires Valid()
      modifies this`leftHandled
      ensures Valid() && !leftHandled
    {
      leftHandled := false;
    }

    /** The debounce timer of the right key fires. */
    method ClearRightHandled()
      requires Valid()
      modifies this`rightHandled
      ensures Valid() && !rightHandled
    {
      rightHandled := false;
    }

    /** A one-finger swipe of horizontal extent dx: at most one steer, and
        none for a drag of 30 px or less. No debounce applies. */
    method Swipe(dx: real)
      requires LaneValid()
      modifies player`lane, player`targetX
      ensures LaneValid()
      ensures player.lane == StepLane(old(player.lane), SwipeDelta(dx))
      ensures -SwipeThreshold <= dx <= SwipeThreshold ==> unchanged(player)
    {
      if dx < -SwipeThreshold {
        SteerLeft();
      }
      if dx > SwipeThreshold {
        SteerRight();
      }
    }

    /** Appends one obstacle built from the draws. */
    method SpawnObstacle(draws: Draws)
      requires ObstaclesValid() && DrawsInRange(draws)
      modifies this`obstacles
      ensures ObstaclesValid()
      ensures obstacles == old(obstacles) + [Spawned(draws, laneWidth)]
    {
      var ob := Spawned(draws, laneWidth);
      obstacles := obstacles + [ob];
    }

    /** The obstacle loop of a frame: walking the array from its end, each
        obstacle is advanced, tested against the player's box (a crash only
        while the player is alive) and removed once past `limit`. */
    method MoveObstacles(speed: real, dt: real, limit: real)
      requires ObstaclesValid() && CrashLatched() && running && speed >= MinSpeed
      modifies this`obstacles, this`running, this`pendingReports, this`crashes, player`alive
      ensures ObstaclesValid() && CrashLatched()
      ensures obstacles == Pass(old(obstacles), speed, dt, limit)
      ensures var hit := HitAmong(PlayerBox(), old(obstacles), speed, dt);
              player.alive == !hit && running == !hit &&
              pendingReports == old(pendingReports) + (if hit then 1 else 0)
    {
      ghost var orig := obstacles;
      var field := obstacles;
      var pbox := PlayerBox();
      var i := |field| - 1;
      while i >= 0
        invariant -1 <= i < |orig|
        invariant field == orig[..i + 1] + Pass(orig[i + 1..], speed, dt, limit)
        invariant player.alive == !HitAmong(pbox, orig[i + 1..], speed, dt)
        invariant running == player.alive
        invariant pendingReports == old(pendingReports) + (if player.alive then 0 else 1)
        invariant crashes == (if player.alive then 0 else 1)
      {
        ghost var rest := Pass(orig[i + 1..], speed, dt, limit);
        PassUnfold(orig, i, speed, dt, limit);
        HitUnfold(pbox, orig, i, speed, dt);
        var ob := Moved(field[i], speed, dt);
        SpliceStep(orig, i, ob, rest);
        field := field[i := ob];
        if RectsIntersect(pbox, Box(ob)) && player.alive {
          player.alive := false;
          running := false;
          pendingReports := pendingReports + 1;
          crashes := crashes + 1;
        }
        if ob.y > limit {
          field := field[..i] + field[i + 1..];
        }
        i := i - 1;
      }
      obstacles := field;
      assert orig[0..] == orig;
      SurvivorsAdvance(orig, speed, dt, limit);
    }

    /** One frame of the game. Nothing happens unless a run is going and not
        paused. Otherwise the frame delta is capped, difficulty grows, a spawn
        happens if due, held keys steer (debounced), the car slides toward its
        target, the obstacles move, may crash the car and are culled, and
        distance and score accrue, the crash frame included. The speed of the
        frame uses the braking state of the previous frame. */
    method Step(rawDt: real, input: Input, height: real, draws: Draws)
      requires Valid() && DrawsInRange(draws)
      modifies this, player
      ensures Valid()
      ensures old(!running || paused) ==> unchanged(this, player)
      ensures old(running && !paused) ==> speedFactor == NextSpeedFactor(old(speedFactor), FrameDelta(rawDt))
      ensures old(running && !paused) ==>
        var dt := FrameDelta(rawDt);
        var due := SpawnDue(old(spawnTimer) + dt, old(spawnInterval));
        && spawnTimer == (if due then 0.0 else old(spawnTimer) + dt)
        && spawnInterval == (if due then NextSpawnInterval(old(spawnInterval)) else old(spawnInterval))
        && spawns == old(spawns) + (if due then 1 else 0)
      ensures old(running && !paused) ==>
        var lane := if input.left then Debounced(old(player.lane), old(leftHandled), -1) else old(player.lane);
        && player.lane == (if input.right then Debounced(lane, old(rightHandled), 1) else lane)
        && leftHandled == (old(leftHandled) || input.left)
        && rightHandled == (old(rightHandled) || input.right)
        && player.braking == input.brake
      ensures old(running && !paused) ==> player.x == Slide(old(player.x), player.targetX, FrameDelta(rawDt))
      ensures old(running && !paused) ==>
        var dt := FrameDelta(rawDt);
        var speed := CurrentSpeed(speedFactor, old(player.braking));
        var due := SpawnDue(old(spawnTimer) + dt, old(spawnInterval));
        var field := old(obstacles) + (if due then [Spawned(draws, laneWidth)] else []);
        var hit := HitAmong(PlayerBox(), field, speed, dt);
        && obstacles == Pass(field, speed, dt, height + CullMargin)
        && player.alive == !hit && running == !hit
        && pendingReports == old(pendingReports) + (if hit then 1 else 0)
      ensures old(running && !paused) ==>
        var speed := CurrentSpeed(speedFactor, old(player.braking));
        && distance == old(distance) + Travel(speed, FrameDelta(rawDt))
        && score == old(score) + Points(Travel(speed, FrameDelta(rawDt)))
      ensures old(running && !paused) && rawDt >= 0.0 ==>
        speedFactor >= old(speedFactor) && distance >= old(distance) && score >= old(score)
      ensures paused == old(paused) && laneWidth == old(laneWidth) && highScore == old(highScore)
      ensures player.y == old(player.y)
    {
      if !running || paused {
        return;
      }
      var dt, currentSpeed := Prepare(rawDt, input, draws);
      Resolve(currentSpeed, dt, height + CullMargin);
    }

    method Prepare(rawDt: real, input: Input, draws: Draws) returns (dt: real, currentSpeed: real)
      requires LaneValid() && ObstaclesValid() && ClockValid() && DrawsInRange(draws)
      modifies this`speedFactor, this`spawnTimer, this`spawnInterval, this`spawns, this`obstacles
      modifies this`leftHandled, this`rightHandled, player`lane, player`targetX, player`braking, player`x
      ensures LaneValid() && ObstaclesValid() && ClockValid()
      ensures dt == FrameDelta(rawDt)
      ensures currentSpeed == CurrentSpeed(speedFactor, old(player.braking))
      ensures speedFactor == NextSpeedFactor(old(speedFactor), dt)
      ensures var due := SpawnDue(old(spawnTimer) + dt, old(spawnInterval));
              && spawnTimer == (if due then 0.0 else old(spawnTimer) + dt)
              && spawnInterval == (if due then NextSpawnInterval(old(spawnInterval)) else old(spawnInterval))
              && spawns == old(spawns) + (if due then 1 else 0)
              && obstacles == old(obstacles) + (if due then [Spawned(draws, laneWidth)] else [])
      ensures var lane := if input.left then Debounced(old(player.lane), old(leftHandled), -1) else old(player.lane);
              player.lane == (if input.right then Debounced(lane, old(rightHandled), 1) else lane)
      ensures leftHandled == (old(leftHandled) || input.left)
      ensures rightHandled == (old(rightHandled) || input.right)
      ensures player.braking == input.brake
      ensures player.x == Slide(old(player.x), player.targetX, dt)
    {
      dt := FrameDelta(rawDt);
      currentSpeed := IncreaseDifficulty(dt);
      SpawnLogic(dt, draws);
      HandleSteering(input);
      SlidePlayer(dt);
    }

    method Resolve(currentSpeed: real, dt: real, limit: real)
      requires ObstaclesValid() && CrashLatched() && ClockValid() && running && currentSpeed >= MinSpeed
      modifies this`obstacles, this`running, this`pendingReports, this`crashes, player`alive
      modifies this`distance, this`score
      ensures ObstaclesValid() && CrashLatched() && ClockValid()
      ensures obstacles == Pass(old(obstacles), currentSpeed, dt, limit)
      ensures var hit := HitAmong(PlayerBox(), old(obstacles), currentSpeed, dt);
              player.alive == !hit && running == !hit &&
              pendingReports == old(pendingReports) + (if hit then 1 else 0)
      ensures distance == old(distance) + Travel(currentSpeed, dt)
      ensures score == old(score) + Points(Travel(currentSpeed, dt))
      ensures dt >= 0.0 ==> distance >= old(distance) && score >= old(score)
    {
      MoveObstacles(currentSpeed, dt, limit);
      UpdateScore(currentSpeed, dt);
    }

    /** Grows the speed factor and gives the frame's forward speed, from the
        braking state the car had before this frame. */
    method IncreaseDifficulty(dt: real) returns (currentSpeed: real)
      modifies this`speedFactor
      ensures speedFactor == NextSpeedFactor(old(speedFactor), dt)
      ensures currentSpeed == CurrentSpeed(speedFactor, player.braking)
    {
      speedFactor := NextSpeedFactor(speedFactor, dt);
      currentSpeed := CurrentSpeed(speedFactor, player.braking);
    }

    /** Advances the spawn timer; when it reaches the interval, resets it to
        zero, tightens the interval and spawns one obstacle, counting the
        spawn so that the interval stays on the run's schedule. */
    method SpawnLogic(dt: real, draws: Draws)
      requires ClockValid() && ObstaclesValid() && DrawsInRange(draws)
      modifies this`spawnTimer, this`spawnInterval, this`spawns, this`obstacles
      ensures ClockValid() && ObstaclesValid()
      ensures var due := SpawnDue(old(spawnTimer) + dt, old(spawnInterval));
              && spawnTimer == (if due then 0.0 else old(spawnTimer) + dt)
              && spawnInterval == (if due then NextSpawnInterval(old(spawnInterval)) else old(spawnInterval))
              && spawns == old(spawns) + (if due then 1 else 0)
              && obstacles == old(obstacles) + (if due then [Spawned(draws, laneWidth)] else [])
    {
      spawnTimer := spawnTimer + dt;
      if spawnTimer >= spawnInterval {
        spawnTimer := 0.0;
        spawnInterval := NextSpawnInterval(spawnInterval);
        spawns := spawns + 1;
        IntervalAfterBounds(spawns);
        SpawnObstacle(draws);
      }
    }

    /** Held keys steer through the debounce; the brake key sets braking. */
    method HandleSteering(input: Input)
      requires LaneValid()
      modifies this`leftHandled, this`rightHandled, player`lane, player`targetX, player`braking
      ensures LaneValid()
      ensures var lane := if input.left then Debounced(old(player.lane), old(leftHandled), -1) else old(player.lane);
              player.lane == (if input.right then Debounced(lane, old(rightHandled), 1) else lane)
      ensures leftHandled == (old(leftHandled) || input.left)
      ensures rightHandled == (old(rightHandled) || input.right)
      ensures player.braking == input.brake
    {
      if input.left {
        SteerLeftImmediate();
      }
      if input.right {
        SteerRightImmediate();
      }
      player.braking := input.brake;
    }

    /** Moves the car one frame toward its target. */
    method SlidePlayer(dt: real)
      modifies player`x
      ensures player.x == Slide(old(player.x), player.targetX, dt)
    {
      player.x := Slide(player.x, player.targetX, dt);
    }

    /** Accrues the frame's distance and the score that goes with it. */
    method UpdateScore(currentSpeed: real, dt: real)
      requires ClockValid()
      modifies this`distance, this`score
      ensures ClockValid()
      ensures distance == old(distance) + Travel(currentSpeed, dt)
      ensures score == old(score) + Points(Travel(currentSpeed, dt))
      ensures currentSpeed >= 0.0 && dt >= 0.0 ==> distance >= old(distance) && score >= old(score)
    {
      var travelled := Travel(currentSpeed, dt);
      distance := distance + travelled;
      score := score + Points(travelled);
      if dt >= 0.0 && currentSpeed >= 0.0 {
        SignOfProduct(dt, currentSpeed);
      }
    }

    /** The crash-report callback: the high score becomes the larger of itself
        and the whole part of the current score. */
    method ReportCrash()
      requires Valid() && pendingReports > 0
      modifies this`highScore, this`pendingReports
      ensures Valid()
      ensures highScore == NewHighScore(old(highScore), score)
      ensures highScore >= old(highScore)
      ensures pendingReports == old(pendingReports) - 1
    {
      pendingReports := pendingReports - 1;
      highScore := NewHighScore(highScore, score);
    }
  }
}
