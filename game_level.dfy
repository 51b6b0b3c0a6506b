/** The level component as an object (components/game-level.tsx): its state
    variables and references are fields, and each handler or effect is a
    method proved to do what the matching function of `Simulation` says. */
module Stage {
  import opened Types
  import opened Config
  import opened Entities
  import opened Physics
  import opened Collision
  import opened Scoring
  import opened Spawning
  import opened Simulation

  /** One obstacle in the source's `map` callback: the moved obstacle, and
      the point it adds to the running total together with the updated
      `passedPairs` set. */
  method PassOne(m: Motion, obstacle: Obstacle, c: ChaosDraw, passedPairs: set<int>)
    returns (moved: Obstacle, point: nat, pairs: set<int>)
    ensures moved == StepObstacle(m, obstacle, c)
    ensures (point, pairs) == Award(m, obstacle, passedPairs)
  {
    moved := Advance(m.level, m.mobile, m.speed, m.mult, obstacle, c);
    point := 0;
    pairs := passedPairs;
    if !obstacle.passed && obstacle.x + obstacle.width < m.playerX {
      moved := moved.(passed := true);
      if m.level == Easy && obstacle.kind.CityObstacle? && obstacle.pairId.Some? {
        if !obstacle.isScoreCounted && obstacle.pairId.value !in pairs {
          pairs := pairs + {obstacle.pairId.value};
          point := 1;
        }
        moved := moved.(isScoreCounted := true);
      } else if m.level == Hard && obstacle.givesPoints {
        point := 1;
      }
    }
  }

  /** The source's `map` over all obstacles, with its running point total
      and `passedPairs` set. */
  method PassOver(m: Motion, obs: seq<Obstacle>, chaos: seq<ChaosDraw>)
    returns (updated: seq<Obstacle>, newScore: nat, passedPairs: set<int>)
    requires |chaos| >= |obs|
    ensures updated == StepAll(m, obs, chaos, |obs|)
    ensures Tally(newScore, passedPairs) == TallyPass(m, obs, |obs|)
  {
    updated := [];
    newScore := 0;
    passedPairs := {};
    var i := 0;
    while i < |obs|
      invariant 0 <= i <= |obs|
      invariant |updated| == i
      invariant forall k :: 0 <= k < i ==> updated[k] == StepObstacle(m, obs[k], chaos[k])
      invariant Tally(newScore, passedPairs) == TallyPass(m, obs, i)
    {
      var moved, point;
      moved, point, passedPairs := PassOne(m, obs[i], chaos[i], passedPairs);
      newScore := newScore + point;
      updated := updated + [moved];
      i := i + 1;
    }
  }

  /** The hard level's spawn loop: one asteroid per iteration, in order. */
  method SpawnBurst(speed: real, draws: SpawnDraws) returns (rocks: seq<Obstacle>)
    requires ValidDraws(draws)
    ensures rocks == Burst(speed, draws)
  {
    var cat := CategoryOf(draws.category);
    var count := BurstSize(cat, draws.count);
    ghost var burst := Burst(speed, draws);
    rocks := [];
    for i := 0 to count
      invariant rocks == burst[..i]
    {
      assert burst[..i + 1] == burst[..i] + [burst[i]];
      rocks := rocks + [MakeAsteroid(cat, i, draws.asteroids[i], speed)];
    }
    assert burst[..count] == burst;
  }

  class GameLevel {
    var level: Level
    /** Whether the device counts as mobile; fixed for the object's life. */
    const mobile: bool
    var gameRunning: bool
    var isPaused: bool
    var gameOver: bool
    var isHolding: bool
    var showCrashImage: bool
    /** The crash timers started and not yet fired. */
    var crashTimers: nat
    var score: nat
    var gameSpeed: real
    var player: Player
    var obstacles: seq<Obstacle>
    var lastObstacle: int
    var lastTime: real
    var frameCount: nat
    /** The city pairs credited so far in this run. */
    ghost var scoredPairs: set<int>

    ghost function State(): Session
      reads this
    {
      Session(level, mobile, gameRunning, isPaused, gameOver, isHolding, showCrashImage, crashTimers,
              score, gameSpeed, player, obstacles, lastObstacle, lastTime, frameCount, scoredPairs)
    }

    ghost predicate Valid()
      reads this
    {
      Inv(State())
    }

    /** The component as it mounts. */
    constructor (level: Level, mobile: bool)
      ensures State() == InitialSession(level, mobile) && Valid()
    {
      this.level := level;
      this.mobile := mobile;
      gameRunning := true;
      isPaused := false;
      gameOver := false;
      isHolding := false;
      showCrashImage := false;
      crashTimers := 0;
      score := 0;
      gameSpeed := BaseSpeed(level);
      player := Player(PLAYER_X, PLAYER_START_Y, 0.0);
      obstacles := [];
      lastObstacle := 0;
      lastTime := 0.0;
      frameCount := 0;
      scoredPairs := {};
      new;
      InitialSessionValid(level, mobile);
    }

    /** `handleInput`: a press or a release of the space bar, the mouse or a
        touch. */
    method HandleInput(isPressed: bool)
      requires Valid()
      modifies this
      ensures State() == InputSpec(old(State()), isPressed) && Valid()
    {
      InputKeepsInv(State(), isPressed);
      if !gameRunning || isPaused {
        return;
      }
      if level == Easy {
        isHolding := isPressed;
      } else if isPressed {
        player := player.(velocityY := JumpForce(level));
      }
    }

    /** The Escape key flips the pause flag. */
    method TogglePause()
      requires Valid()
      modifies this
      ensures State() == old(State()).(isPaused := !old(isPaused)) && Valid()
    {
      isPaused := !isPaused;
    }

    /** The pause button and the resume button set the pause flag. */
    method SetPaused(paused: bool)
      requires Valid()
      modifies this
      ensures State() == old(State()).(isPaused := paused) && Valid()
    {
      isPaused := paused;
    }

    /** The loop effect: when the run is live the frame timing restarts. */
    method StartLoop()
      requires Valid()
      modifies this
      ensures State() == StartLoopSpec(old(State())) && Valid()
    {
      if gameRunning && !isPaused && !gameOver {
        lastTime := 0.0;
      }
    }

    /** A crash timer fires one second after its collision. */
    method CrashTimerFires()
      requires Valid()
      modifies this
      ensures State() == CrashTimerSpec(old(State())) && Valid()
    {
      if crashTimers > 0 {
        crashTimers := crashTimers - 1;
        showCrashImage := false;
        gameOver := true;
      }
    }

    /** The game-over effect: the score reported to the page, if any. */
    method ReportGameOver() returns (report: Option<nat>)
      ensures report == GameOverReport(State())
      ensures report.Some? <==> gameOver
      ensures report.Some? ==> report.value == score
    {
      if gameOver {
        report := Some(score);
      } else {
        report := None;
      }
    }

    /** The reset effect run when the level changes. */
    method ChangeLevel(newLevel: Level)
      requires Valid()
      modifies this
      ensures State() == ResetForLevel(old(State()), newLevel) && Valid()
    {
      ResetKeepsInv(State(), newLevel);
      ResetState(newLevel);
      ResetRefs();
    }

    /** The effect's state updates: the level's empty board. */
    method ResetState(newLevel: Level)
      modifies this
      ensures State() == old(State()).(level := newLevel, obstacles := [], score := 0, player := START_PLAYER,
                                       gameSpeed := BaseSpeed(newLevel), scoredPairs := {})
    {
      level, obstacles, score, player, gameSpeed := newLevel, [], 0, START_PLAYER, BaseSpeed(newLevel);
      scoredPairs := {};
    }

    /** The effect's reference updates: the frame timing and the spawn clock. */
    method ResetRefs()
      modifies this
      ensures State() == old(State()).(lastTime := 0.0, frameCount := 0, lastObstacle := 0)
    {
      lastTime, frameCount, lastObstacle := 0.0, 0, 0;
    }

    /** The player's update of a frame: the `setPlayer` callback computes
        the step, and a fall stops the run instead of moving the player. */
    method MovePlayer(mult: real)
      modifies this
      ensures State() == PlayerPhase(old(State()), mult)
    {
      match StepPlayer(level, isHolding, player, mult)
      case Moved(next) =>
        player := next;
      case FellOff =>
        gameRunning, gameOver := false, true;
    }

    /** The obstacles' update of a frame: the pass, the pruning, the score
        and the speed. */
    method UpdateObstacles(mult: real, chaos: seq<ChaosDraw>, playerX: real)
      requires |chaos| >= |obstacles|
      modifies this
      ensures State() == ApplyPass(old(State()), PassOf(old(State()), mult, chaos, playerX))
    {
      var m := Motion(level, mobile, gameSpeed, mult, playerX);
      var updated, newScore, passedPairs := PassOver(m, obstacles, chaos);
      ApplyTally(Pass(updated, newScore, passedPairs));
    }

    /** The state updates after the pass: the kept obstacles, and when
        points were earned the new score and, at a milestone, the new speed. */
    method ApplyTally(pass: Pass)
      modifies this
      ensures State() == ApplyPass(old(State()), pass)
    {
      obstacles := Prune(pass.obstacles);
      scoredPairs := scoredPairs + pass.pairs;
      if pass.points > 0 {
        score := score + pass.points;
        if score % SCORE_MILESTONE == 0 && score <= ESCALATION_CEILING {
          gameSpeed := Min(gameSpeed * SPEED_GROWTH, MaxSpeed(level, mobile));
        }
      }
    }

    /** The collision check of a frame against the player and obstacles the
        frame began with. */
    method CheckCollisions(startPlayer: Player, startObstacles: seq<Obstacle>)
      modifies this
      ensures State() == CollisionPhase(old(State()), startPlayer, startObstacles)
    {
      if !mobile || frameCount % 2 == 0 {
        var hits := CountCollisions(startPlayer, startObstacles, mobile);
        if hits > 0 {
          gameRunning := false;
          showCrashImage := true;
          crashTimers := crashTimers + hits;
        }
      }
    }

    /** `generateObstacle`, with the speed the frame began with. */
    method GenerateObstacle(now: int, speed: real, draws: SpawnDraws)
      requires ValidDraws(draws)
      modifies this
      ensures State() == SpawnPhase(old(State()), now, speed, draws)
    {
      if now - lastObstacle < SpawnInterval(level) {
        return;
      }
      lastObstacle := now;
      if level == Easy {
        obstacles := obstacles + CityPair(now, draws.city);
      } else {
        var rocks := SpawnBurst(speed, draws);
        obstacles := obstacles + rocks;
      }
    }

    /** The frame timing: the first frame seeds the reference time, and the
        frame counter advances. */
    method AdvanceClock(currentTime: real) returns (deltaTime: real)
      modifies this
      ensures State() == Timed(old(State()), currentTime)
      ensures deltaTime == FrameDelta(old(State()), currentTime)
    {
      if lastTime == 0.0 {
        lastTime := currentTime;
      }
      deltaTime := currentTime - lastTime;
      lastTime := currentTime;
      frameCount := frameCount + 1;
    }

    /** The work of a frame that passed the throttle. */
    method MoveAndSpawnFrame(mult: real, f: FrameInputs)
      requires InputsFit(State(), f)
      modifies this
      ensures State() == MoveAndSpawn(old(State()), mult, f)
    {
      var startPlayer := player;
      var startObstacles := obstacles;
      var startSpeed := gameSpeed;
      MovePlayer(mult);
      UpdateObstacles(mult, f.chaos, startPlayer.x);
      CheckCollisions(startPlayer, startObstacles);
      GenerateObstacle(f.now, startSpeed, f.draws);
    }

    /** `gameLoop` without the invariant. */
    method Frame(f: FrameInputs)
      requires InputsFit(State(), f)
      modifies this
      ensures State() == TickSpec(old(State()), f)
    {
      if !gameRunning || isPaused || gameOver {
        return;
      }
      var deltaTime := AdvanceClock(f.currentTime);
      if deltaTime < FrameThreshold(mobile) {
        return;
      }
      var mult := Min(deltaTime, FixedDelta(mobile) * 2.0) / FixedDelta(mobile);
      MoveAndSpawnFrame(mult, f);
    }

    /** One animation frame (`gameLoop`). */
    method Tick(currentTime: real, now: int, chaos: seq<ChaosDraw>, draws: SpawnDraws)
      requires Valid() && |chaos| >= |obstacles| && ValidDraws(draws)
      modifies this
      ensures State() == TickSpec(old(State()), FrameInputs(currentTime, now, chaos, draws))
      ensures Valid()
    {
      var f := FrameInputs(currentTime, now, chaos, draws);
      TickKeepsInv(State(), f);
      Frame(f);
    }
  }
}
