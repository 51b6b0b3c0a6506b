/** One run of a level as a value (components/game-level.tsx:55-71,
    85-89, 139-150, 340-529, 594-598, 635-644): the specification of every
    operation of the run, and the invariants every reachable run keeps. */
module Simulation {
  import opened Types
  import opened Config
  import opened Entities
  import opened Physics
  import opened Collision
  import opened Scoring
  import opened Spawning

  /** Everything a run owns. `scoredPairs` is bookkeeping of the model: the
      union of the source's per-tick `passedPairs` sets over the run. */
  datatype Session = Session(
    level: Level,
    mobile: bool,
    gameRunning: bool,
    isPaused: bool,
    gameOver: bool,
    isHolding: bool,
    showCrashImage: bool,
    crashTimers: nat,
    score: nat,
    gameSpeed: real,
    player: Player,
    obstacles: seq<Obstacle>,
    lastObstacle: int,
    lastTime: real,
    frameCount: nat,
    scoredPairs: set<int>)

  /** What the environment supplies to one animation frame: the frame's
      timestamp, the wall clock, and the random draws. */
  datatype FrameInputs = FrameInputs(currentTime: real, now: int, chaos: seq<ChaosDraw>, draws: SpawnDraws)

  predicate InputsFit(s: Session, f: FrameInputs)
  {
    |f.chaos| >= |s.obstacles| && ValidDraws(f.draws)
  }

  const START_PLAYER: Player := Player(PLAYER_X, PLAYER_START_Y, 0.0)

  /** The run as the component mounts it. */
  function InitialSession(level: Level, mobile: bool): (r: Session)
    ensures r.level == level && r.mobile == mobile
    ensures r.gameRunning && !r.isPaused && !r.gameOver && !r.isHolding
    ensures !r.showCrashImage && r.crashTimers == 0
    ensures r.score == 0 && r.obstacles == [] && r.scoredPairs == {}
    ensures r.player == START_PLAYER && r.gameSpeed == BaseSpeed(level)
    ensures r.lastTime == 0.0 && r.frameCount == 0 && r.lastObstacle == 0
  {
    Session(level, mobile, true, false, false, false, false, 0, 0, BaseSpeed(level), START_PLAYER,
            [], 0, 0.0, 0, {})
  }

  /** The reset when the level changes: obstacles, score, player, speed and
      the timing references start over; the run/pause/over flags stay. */
  function ResetForLevel(s: Session, level: Level): (r: Session)
    ensures r.level == level && r.mobile == s.mobile && r.isPaused == s.isPaused && r.isHolding == s.isHolding
    ensures SameStatus(r, s)
    ensures r.score == 0 && r.obstacles == [] && r.scoredPairs == {}
    ensures r.player == START_PLAYER && r.gameSpeed == BaseSpeed(level)
    ensures r.lastTime == 0.0 && r.frameCount == 0 && r.lastObstacle == 0
  {
    s.(level := level, obstacles := [], score := 0, player := START_PLAYER, gameSpeed := BaseSpeed(level),
       lastTime := 0.0, frameCount := 0, lastObstacle := 0, scoredPairs := {})
  }

  /** `handleInput`: ignored unless running and not paused; on the easy level
      the press state becomes the hold flag, on the hard level a press
      (never a release) sets the jump velocity. */
  function InputSpec(s: Session, pressed: bool): (r: Session)
    ensures !s.gameRunning || s.isPaused ==> r == s
    ensures r.(isHolding := s.isHolding, player := s.player) == s
    ensures s.level == Hard ==> r.isHolding == s.isHolding
    ensures s.level == Hard && !pressed ==> r == s
    ensures r.player.x == s.player.x && r.player.y == s.player.y
    ensures s.gameRunning && !s.isPaused && s.level == Easy ==> r.isHolding == pressed
    ensures s.gameRunning && !s.isPaused && s.level == Hard && pressed ==> r.player.velocityY == JumpForce(Hard)
  {
    if !s.gameRunning || s.isPaused then s
    else if s.level == Easy then s.(isHolding := pressed)
    else if pressed then s.(player := s.player.(velocityY := JumpForce(Hard)))
    else s
  }

  /** The loop's start effect: a running, unpaused run restarts its frame
      timing. */
  function StartLoopSpec(s: Session): (r: Session)
    ensures r.(lastTime := s.lastTime) == s
    ensures s.gameRunning && !s.isPaused && !s.gameOver ==> r.lastTime == 0.0
    ensures !s.gameRunning || s.isPaused || s.gameOver ==> r == s
  {
    if s.gameRunning && !s.isPaused && !s.gameOver then s.(lastTime := 0.0) else s
  }

  /** A pending crash timer fires: the crash picture goes and the run is over. */
  function CrashTimerSpec(s: Session): (r: Session)
    ensures SameSettings(r, s) && SameBoard(r, s) && SameClock(r, s)
    ensures r.player == s.player && r.gameRunning == s.gameRunning
    ensures s.crashTimers > 0 ==> r.gameOver && !r.showCrashImage && r.crashTimers + 1 == s.crashTimers
    ensures s.crashTimers == 0 ==> r == s
  {
    if s.crashTimers > 0 then s.(crashTimers := s.crashTimers - 1, showCrashImage := false, gameOver := true)
    else s
  }

  /** The game-over effect: once the run is over, its score is reported. */
  function GameOverReport(s: Session): (r: Option<nat>)
    ensures r.Some? <==> s.gameOver
    ensures r.Some? ==> r.value == s.score
  {
    if s.gameOver then Some(s.score) else None
  }

  // Which fields a phase of a tick leaves alone.

  predicate SameSettings(a: Session, b: Session)
  {
    a.level == b.level && a.mobile == b.mobile && a.isPaused == b.isPaused && a.isHolding == b.isHolding
  }

  predicate SameStatus(a: Session, b: Session)
  {
    a.gameRunning == b.gameRunning && a.gameOver == b.gameOver
    && a.showCrashImage == b.showCrashImage && a.crashTimers == b.crashTimers
  }

  predicate SameBoard(a: Session, b: Session)
  {
    && a.score == b.score && a.gameSpeed == b.gameSpeed && a.obstacles == b.obstacles
    && a.scoredPairs == b.scoredPairs && a.lastObstacle == b.lastObstacle
  }

  predicate SameClock(a: Session, b: Session)
  {
    a.lastTime == b.lastTime && a.frameCount == b.frameCount
  }

  /** The player's part of a tick; a fall ends the run and leaves the
      player where it was. */
  function PlayerPhase(s: Session, mult: real): (r: Session)
    ensures SameSettings(r, s) && SameBoard(r, s) && SameClock(r, s)
    ensures r.showCrashImage == s.showCrashImage && r.crashTimers == s.crashTimers
    ensures r.gameRunning ==> s.gameRunning
    ensures r.player.x == s.player.x && 0.0 <= s.player.y <= PLAYER_MAX_Y ==> 0.0 <= r.player.y <= PLAYER_MAX_Y
    ensures r.gameOver != s.gameOver ==> r.player == s.player && !r.gameRunning
    ensures StepPlayer(s.level, s.isHolding, s.player, mult).FellOff? ==> r.gameOver && !r.gameRunning && r.player == s.player
    ensures StepPlayer(s.level, s.isHolding, s.player, mult).Moved? ==>
      r == s.(player := StepPlayer(s.level, s.isHolding, s.player, mult).next)
  {
    match StepPlayer(s.level, s.isHolding, s.player, mult)
    case Moved(p) => s.(player := p)
    case FellOff => s.(gameRunning := false, gameOver := true)
  }

  /** The result of a tick's pass over the obstacles: the updated obstacles
      in order, the points earned and the city pairs credited. */
  datatype Pass = Pass(obstacles: seq<Obstacle>, points: nat, pairs: set<int>)

  /** The pass of a tick over every obstacle, against the player's column. */
  function PassOf(s: Session, mult: real, chaos: seq<ChaosDraw>, playerX: real): Pass
    requires |chaos| >= |s.obstacles|
  {
    var m := Motion(s.level, s.mobile, s.gameSpeed, mult, playerX);
    var t := TallyPass(m, s.obstacles, |s.obstacles|);
    Pass(StepAll(m, s.obstacles, chaos, |s.obstacles|), t.points, t.pairs)
  }

  /** The obstacles' part of a tick, given its pass: the pruning, then the
      points and the speed. */
  function ApplyPass(s: Session, pass: Pass): (r: Session)
    ensures SameSettings(r, s) && SameStatus(r, s) && SameClock(r, s)
    ensures r.player == s.player && r.lastObstacle == s.lastObstacle
    ensures r.obstacles == Prune(pass.obstacles)
    ensures r.gameSpeed == if pass.points > 0 then Escalate(r.score, s.gameSpeed, MaxSpeed(s.level, s.mobile)) else s.gameSpeed
    ensures r.score == s.score + pass.points && r.scoredPairs == s.scoredPairs + pass.pairs
  {
    var kept := Prune(pass.obstacles);
    if pass.points > 0 then
      var total := s.score + pass.points;
      s.(obstacles := kept, score := total,
         gameSpeed := Escalate(total, s.gameSpeed, MaxSpeed(s.level, s.mobile)),
         scoredPairs := s.scoredPairs + pass.pairs)
    else s.(obstacles := kept, scoredPairs := s.scoredPairs + pass.pairs)
  }

  /** The collision part of a tick, against the player and obstacles as they
      were when the tick began. On a mobile device only every other frame
      is checked. Each collision starts a crash timer and stops the run. */
  function CollisionPhase(s: Session, player: Player, obstacles: seq<Obstacle>): (r: Session)
    ensures SameSettings(r, s) && SameBoard(r, s) && SameClock(r, s)
    ensures r.player == s.player && r.gameOver == s.gameOver
    ensures r.gameRunning ==> s.gameRunning
    ensures r.crashTimers > s.crashTimers ==> !r.gameRunning && r.showCrashImage
  {
    if s.mobile && s.frameCount % 2 != 0 then s
    else
      var hits := CollisionCount(player, obstacles, s.mobile);
      if hits > 0 then s.(gameRunning := false, showCrashImage := true, crashTimers := s.crashTimers + hits)
      else s
  }

  /** `generateObstacle`, with the speed the tick began with. */
  function SpawnPhase(s: Session, now: int, speed: real, d: SpawnDraws): (r: Session)
    requires ValidDraws(d)
    ensures SameSettings(r, s) && SameStatus(r, s) && SameClock(r, s)
    ensures r.player == s.player && r.score == s.score && r.gameSpeed == s.gameSpeed && r.scoredPairs == s.scoredPairs
    ensures r.lastObstacle == if SpawnDue(s.level, s.lastObstacle, now) then now else s.lastObstacle
    ensures r.obstacles == if SpawnDue(s.level, s.lastObstacle, now)
                           then s.obstacles + NewObstacles(s.level, now, speed, d) else s.obstacles
  {
    if !SpawnDue(s.level, s.lastObstacle, now) then s
    else s.(lastObstacle := now, obstacles := s.obstacles + NewObstacles(s.level, now, speed, d))
  }

  /** Does the frame get past the guard and the throttle, and with which
      step multiplier? */
  function FrameDelta(s: Session, currentTime: real): real
  {
    currentTime - (if s.lastTime == 0.0 then currentTime else s.lastTime)
  }

  /** The work of a frame that passed the throttle: the player moves, the
      obstacles move and score, collisions are checked against the player
      and obstacles the frame began with, and an obstacle may spawn with the
      speed the frame began with. */
  function MoveAndSpawn(s: Session, mult: real, f: FrameInputs): (r: Session)
    requires InputsFit(s, f)
    ensures SameSettings(r, s) && SameClock(r, s)
    ensures r.score >= s.score && (r.gameRunning ==> s.gameRunning)
    ensures StepPlayer(s.level, s.isHolding, s.player, mult).FellOff? ==> r.gameOver && !r.gameRunning && r.player == s.player
    ensures r.score == s.score + TallyPass(Motion(s.level, s.mobile, s.gameSpeed, mult, s.player.x), s.obstacles, |s.obstacles|).points
    ensures r.lastObstacle == if SpawnDue(s.level, s.lastObstacle, f.now) then f.now else s.lastObstacle
  {
    var moved := PlayerPhase(s, mult);
    var scored := ApplyPass(moved, PassOf(moved, mult, f.chaos, s.player.x));
    var checked := CollisionPhase(scored, s.player, s.obstacles);
    SpawnPhase(checked, f.now, s.gameSpeed, f.draws)
  }

  /** The frame timing references after a frame at `currentTime`. */
  function Timed(s: Session, currentTime: real): (r: Session)
    ensures SameSettings(r, s) && SameStatus(r, s) && SameBoard(r, s) && r.player == s.player
    ensures r.lastTime == currentTime && r.frameCount == s.frameCount + 1
  {
    s.(lastTime := currentTime, frameCount := s.frameCount + 1)
  }

  /** One animation frame (`gameLoop`). Nothing happens to a run that is
      stopped, paused or over. Otherwise the timing references advance, and
      unless the throttle skips the frame the player moves, the obstacles
      move and score, collisions are checked and an obstacle may spawn. */
  function TickSpec(s: Session, f: FrameInputs): (r: Session)
    requires InputsFit(s, f)
    ensures !s.gameRunning || s.isPaused || s.gameOver ==> r == s
    ensures s.gameRunning && !s.isPaused && !s.gameOver ==> r.lastTime == f.currentTime && r.frameCount == s.frameCount + 1
    ensures SameSettings(r, s)
    ensures r.score >= s.score && (r.gameRunning ==> s.gameRunning)
    ensures s.gameRunning && !s.isPaused && !s.gameOver && FrameDelta(s, f.currentTime) < FrameThreshold(s.mobile)
      ==> r == Timed(s, f.currentTime)
  {
    if !s.gameRunning || s.isPaused || s.gameOver then s
    else
      var delta := FrameDelta(s, f.currentTime);
      if delta < FrameThreshold(s.mobile) then Timed(s, f.currentTime)
      else MoveAndSpawn(Timed(s, f.currentTime), StepMultiplier(delta, s.mobile), f)
  }

  // The invariants of a run.

  predicate ObstacleShape(o: Obstacle)
  {
    && 0.0 < o.width && 0.0 < o.height <= GAME_HEIGHT
    && (o.kind == Asteroid(Red) ==> 0.0 <= o.y <= GAME_HEIGHT - o.height)
  }

  /** The easy level holds only city buildings, each in a pair and counted
      exactly when passed; the hard level holds only asteroids, of which
      the blue ones give points. */
  predicate MatchesLevel(level: Level, o: Obstacle)
  {
    if level == Easy then
      o.kind.CityObstacle? && o.pairId.Some? && !o.givesPoints && o.isScoreCounted == o.passed
    else
      o.kind.Asteroid? && o.pairId.None? && (o.givesPoints <==> o.kind.color == Blue)
  }

  /** The two buildings of a pair move as one. */
  predicate InLockstep(a: Obstacle, b: Obstacle)
  {
    a.pairId.Some? && a.pairId == b.pairId ==> a.x == b.x && a.width == b.width && a.passed == b.passed
  }

  /** On the easy level the score is the number of credited pairs, a
      building is passed exactly when its pair is credited, and no pair
      identifier is newer than the last spawn. */
  predicate PairBook(s: Session)
  {
    s.level == Easy ==>
      && s.score == |s.scoredPairs|
      && (forall p :: p in s.scoredPairs ==> p <= s.lastObstacle)
      && (forall o :: o in s.obstacles ==>
            o.pairId.Some? && o.pairId.value <= s.lastObstacle && (o.passed <==> o.pairId.value in s.scoredPairs))
  }

  predicate ObstaclesValid(s: Session)
  {
    && (forall o :: o in s.obstacles ==> ObstacleShape(o) && MatchesLevel(s.level, o))
    && (forall a, b :: a in s.obstacles && b in s.obstacles ==> InLockstep(a, b))
  }

  /** What holds of every run: the player stays on screen at its column, the
      speed stays between the level's base and its cap, a run that is over
      (or crashed) is not running, and the obstacle invariants. */
  predicate Inv(s: Session)
  {
    && s.player.x == PLAYER_X && 0.0 <= s.player.y <= PLAYER_MAX_Y
    && BaseSpeed(s.level) <= s.gameSpeed <= MaxSpeed(s.level, s.mobile)
    && ((s.gameOver || s.showCrashImage || s.crashTimers > 0) ==> !s.gameRunning)
    && ObstaclesValid(s)
    && PairBook(s)
  }

  lemma InitialSessionValid(level: Level, mobile: bool)
    ensures Inv(InitialSession(level, mobile))
  {
  }

  lemma ResetKeepsInv(s: Session, level: Level)
    requires Inv(s)
    ensures Inv(ResetForLevel(s, level))
  {
  }

  lemma InputKeepsInv(s: Session, pressed: bool)
    requires Inv(s)
    ensures Inv(InputSpec(s, pressed))
  {
  }

  /** One building's step keeps it in step with its partner. */
  lemma StepKeepsLockstep(m: Motion, a: Obstacle, b: Obstacle, ca: ChaosDraw, cb: ChaosDraw)
    requires a.pairId.Some? ==> a.kind.CityObstacle?
    requires b.pairId.Some? ==> b.kind.CityObstacle?
    requires InLockstep(a, b)
    ensures InLockstep(StepObstacle(m, a, ca), StepObstacle(m, b, cb))
  {
    if a.pairId.Some? && a.pairId == b.pairId {
      assert MovesLinearly(m.level, m.mobile, a) && MovesLinearly(m.level, m.mobile, b);
    }
  }

  /** Every obstacle left after the pass and the pruning is the step of an
      obstacle that was there. */
  lemma PassOrigin(s: Session, mult: real, chaos: seq<ChaosDraw>, o: Obstacle) returns (k: nat)
    requires |chaos| >= |s.obstacles|
    requires o in Prune(PassOf(s, mult, chaos, s.player.x).obstacles)
    ensures k < |s.obstacles| && s.obstacles[k] in s.obstacles
    ensures o == StepObstacle(Motion(s.level, s.mobile, s.gameSpeed, mult, s.player.x), s.obstacles[k], chaos[k])
  {
    var pass := PassOf(s, mult, chaos, s.player.x);
    k :| 0 <= k < |pass.obstacles| && pass.obstacles[k] == o;
  }

  /** The pass keeps every obstacle's shape, its level's kind and the
      lockstep of pairs. */
  lemma PassKeepsObstaclesValid(s: Session, mult: real, chaos: seq<ChaosDraw>)
    requires ObstaclesValid(s) && |chaos| >= |s.obstacles|
    ensures ObstaclesValid(ApplyPass(s, PassOf(s, mult, chaos, s.player.x)))
  {
    var r := ApplyPass(s, PassOf(s, mult, chaos, s.player.x));
    var m := Motion(s.level, s.mobile, s.gameSpeed, mult, s.player.x);
    forall o | o in r.obstacles
      ensures ObstacleShape(o) && MatchesLevel(r.level, o)
    {
      var k := PassOrigin(s, mult, chaos, o);
    }
    forall a, b | a in r.obstacles && b in r.obstacles
      ensures InLockstep(a, b)
    {
      var i := PassOrigin(s, mult, chaos, a);
      var j := PassOrigin(s, mult, chaos, b);
      StepKeepsLockstep(m, s.obstacles[i], s.obstacles[j], chaos[i], chaos[j]);
    }
  }

  /** On the easy level a pass credits only pairs that were not credited
      before, so the score stays the number of credited pairs, and a
      building is passed after the pass exactly when its pair is credited. */
  lemma {:induction false} PassKeepsPairBook(s: Session, mult: real, chaos: seq<ChaosDraw>)
    requires ObstaclesValid(s) && PairBook(s) && |chaos| >= |s.obstacles|
    ensures PairBook(ApplyPass(s, PassOf(s, mult, chaos, s.player.x)))
  {
    if s.level == Easy {
      var r := ApplyPass(s, PassOf(s, mult, chaos, s.player.x));
      var obs := s.obstacles;
      var n := |obs|;
      var m := Motion(s.level, s.mobile, s.gameSpeed, mult, s.player.x);
      var pass := PassOf(s, mult, chaos, s.player.x);
      EasyPassCreditsPairs(m, obs, n);
      forall p | p in pass.pairs
        ensures p !in s.scoredPairs && p <= s.lastObstacle
      {
        assert Credited(m, obs, n, p);
        var k :| 0 <= k < n && NewlyScores(m, obs[k], p);
        assert obs[k] in obs;
      }
      assert s.scoredPairs !! pass.pairs;
      assert |s.scoredPairs + pass.pairs| == |s.scoredPairs| + |pass.pairs|;
      forall o | o in r.obstacles
        ensures o.pairId.Some? && o.pairId.value <= r.lastObstacle
        ensures o.passed <==> o.pairId.value in r.scoredPairs
      {
        var k := PassOrigin(s, mult, chaos, o);
        var p := o.pairId.value;
        if o.passed && !obs[k].passed {
          assert NewlyScores(m, obs[k], p);
        }
        if p in pass.pairs {
          assert Credited(m, obs, n, p);
          var j :| 0 <= j < n && NewlyScores(m, obs[j], p);
          assert obs[j] in obs;
          assert InLockstep(obs[j], obs[k]);
        }
      }
    }
  }

  /** The speed stays between the level's base and its cap. */
  lemma PassKeepsSpeed(s: Session, mult: real, chaos: seq<ChaosDraw>)
    requires BaseSpeed(s.level) <= s.gameSpeed <= MaxSpeed(s.level, s.mobile) && |chaos| >= |s.obstacles|
    ensures var r := ApplyPass(s, PassOf(s, mult, chaos, s.player.x));
      BaseSpeed(r.level) <= r.gameSpeed <= MaxSpeed(r.level, r.mobile)
  {
  }

  /** A spawn keeps every invariant: a new pair's identifier is newer than
      every earlier one, and new asteroids are shaped as their level wants. */
  lemma {:induction false} SpawnPhaseKeepsInv(s: Session, now: int, speed: real, d: SpawnDraws)
    requires Inv(s) && ValidDraws(d)
    ensures Inv(SpawnPhase(s, now, speed, d))
  {
    if SpawnDue(s.level, s.lastObstacle, now) {
      var r := SpawnPhase(s, now, speed, d);
      var added := NewObstacles(s.level, now, speed, d);
      assert r.obstacles == s.obstacles + added;
      if s.level == Easy {
        var pair := CityPair(now, d.city);
        assert added == pair;
        forall a, b | a in r.obstacles && b in r.obstacles
          ensures InLockstep(a, b)
        {
          if a in s.obstacles && b in pair {
            assert a.pairId.value <= s.lastObstacle < now;
          } else if a in pair && b in s.obstacles {
            assert b.pairId.value <= s.lastObstacle < now;
          }
        }
        assert now !in s.scoredPairs;
      } else {
        forall o | o in added
          ensures ObstacleShape(o) && MatchesLevel(s.level, o)
        {
          var i :| 0 <= i < |added| && added[i] == o;
          assert d.asteroids[i] in d.asteroids;
        }
      }
    }
  }

  /** A checked frame stops the run, shows the crash picture and starts a
      crash timer exactly when some obstacle's hitbox meets the player's;
      when no hitboxes meet, the check changes nothing. */
  lemma CollisionStopsRun(s: Session, player: Player, obstacles: seq<Obstacle>)
    ensures var r := CollisionPhase(s, player, obstacles);
      (!s.mobile || s.frameCount % 2 == 0) && (exists i :: 0 <= i < |obstacles| && Collides(player, obstacles[i], s.mobile))
      ==> !r.gameRunning && r.showCrashImage && r.crashTimers > s.crashTimers
    ensures (forall i :: 0 <= i < |obstacles| ==> !Collides(player, obstacles[i], s.mobile))
      ==> CollisionPhase(s, player, obstacles) == s
  {
    CollisionCountPositive(player, obstacles, s.mobile);
  }

  /** A frame's collision check uses the player and obstacles the frame
      began with: on a checked frame, a hitbox overlap among them stops the
      run and shows the crash picture. */
  lemma MoveAndSpawnCollides(s: Session, mult: real, f: FrameInputs, i: int)
    requires InputsFit(s, f)
    requires !s.mobile || s.frameCount % 2 == 0
    requires 0 <= i < |s.obstacles| && Collides(s.player, s.obstacles[i], s.mobile)
    ensures var r := MoveAndSpawn(s, mult, f);
      !r.gameRunning && r.showCrashImage
  {
    var moved := PlayerPhase(s, mult);
    var scored := ApplyPass(moved, PassOf(moved, mult, f.chaos, s.player.x));
    CollisionStopsRun(scored, s.player, s.obstacles);
  }

  /** What a live frame past the throttle does: a fall off the bottom ends
      the run with the player left in place, the pass's points are added to
      the score, and a hitbox overlap between the player and an obstacle as
      the frame began them stops the run on a checked frame. */
  lemma TickWork(s: Session, f: FrameInputs, i: int)
    requires InputsFit(s, f)
    requires s.gameRunning && !s.isPaused && !s.gameOver
    requires FrameDelta(s, f.currentTime) >= FrameThreshold(s.mobile)
    ensures var mult := StepMultiplier(FrameDelta(s, f.currentTime), s.mobile);
      var r := TickSpec(s, f);
      && (StepPlayer(s.level, s.isHolding, s.player, mult).FellOff? ==> r.gameOver && !r.gameRunning && r.player == s.player)
      && r.score == s.score + TallyPass(Motion(s.level, s.mobile, s.gameSpeed, mult, s.player.x), s.obstacles, |s.obstacles|).points
      && ((!s.mobile || (s.frameCount + 1) % 2 == 0) && 0 <= i < |s.obstacles| && Collides(s.player, s.obstacles[i], s.mobile)
          ==> !r.gameRunning && r.showCrashImage)
  {
    var mult := StepMultiplier(FrameDelta(s, f.currentTime), s.mobile);
    var t := Timed(s, f.currentTime);
    if (!s.mobile || (s.frameCount + 1) % 2 == 0) && 0 <= i < |s.obstacles| && Collides(s.player, s.obstacles[i], s.mobile) {
      MoveAndSpawnCollides(t, mult, f, i);
    }
  }

  /** The work of a frame never lowers the speed nor lifts it over the cap. */
  lemma MoveAndSpawnSpeed(s: Session, mult: real, f: FrameInputs)
    requires InputsFit(s, f) && 0.0 <= s.gameSpeed <= MaxSpeed(s.level, s.mobile)
    ensures s.gameSpeed <= MoveAndSpawn(s, mult, f).gameSpeed <= MaxSpeed(s.level, s.mobile)
  {
    var moved := PlayerPhase(s, mult);
    var scored := ApplyPass(moved, PassOf(moved, mult, f.chaos, s.player.x));
    assert s.gameSpeed <= scored.gameSpeed <= MaxSpeed(s.level, s.mobile);
  }

  /** From a valid run, a frame never lowers the speed and never lifts it
      over the level's cap. */
  lemma TickSpeedNeverDrops(s: Session, f: FrameInputs)
    requires Inv(s) && InputsFit(s, f)
    ensures s.gameSpeed <= TickSpec(s, f).gameSpeed <= MaxSpeed(s.level, s.mobile)
  {
    if s.gameRunning && !s.isPaused && !s.gameOver {
      var delta := FrameDelta(s, f.currentTime);
      if delta >= FrameThreshold(s.mobile) {
        MoveAndSpawnSpeed(Timed(s, f.currentTime), StepMultiplier(delta, s.mobile), f);
      }
    }
  }

  /** A pending crash timer ends the run, and the game-over effect then
      reports the score the run had. */
  lemma CrashReportsScore(s: Session)
    requires Inv(s) && s.crashTimers > 0
    ensures var r := CrashTimerSpec(s);
      r.gameOver && !r.gameRunning && GameOverReport(r) == Some(s.score) && Inv(r)
  {
  }

  lemma PlayerPhaseKeepsInv(s: Session, mult: real)
    requires Inv(s)
    ensures Inv(PlayerPhase(s, mult))
  {
  }

  lemma CollisionPhaseKeepsInv(s: Session, player: Player, obstacles: seq<Obstacle>)
    requires Inv(s)
    ensures Inv(CollisionPhase(s, player, obstacles))
  {
  }

  lemma MoveAndSpawnKeepsInv(s: Session, mult: real, f: FrameInputs)
    requires Inv(s) && InputsFit(s, f)
    ensures Inv(MoveAndSpawn(s, mult, f))
  {
    PlayerPhaseKeepsInv(s, mult);
    var moved := PlayerPhase(s, mult);
    PassKeepsObstaclesValid(moved, mult, f.chaos);
    PassKeepsPairBook(moved, mult, f.chaos);
    PassKeepsSpeed(moved, mult, f.chaos);
    var scored := ApplyPass(moved, PassOf(moved, mult, f.chaos, s.player.x));
    CollisionPhaseKeepsInv(scored, s.player, s.obstacles);
    var checked := CollisionPhase(scored, s.player, s.obstacles);
    SpawnPhaseKeepsInv(checked, f.now, s.gameSpeed, f.draws);
  }

  lemma TimingKeepsInv(s: Session, currentTime: real)
    requires Inv(s)
    ensures Inv(Timed(s, currentTime))
  {
  }

  /** Every frame keeps the invariants. */
  lemma TickKeepsInv(s: Session, f: FrameInputs)
    requires Inv(s) && InputsFit(s, f)
    ensures Inv(TickSpec(s, f))
  {
    if s.gameRunning && !s.isPaused && !s.gameOver {
      var delta := FrameDelta(s, f.currentTime);
      TimingKeepsInv(s, f.currentTime);
      if delta >= FrameThreshold(s.mobile) {
        MoveAndSpawnKeepsInv(Timed(s, f.currentTime), StepMultiplier(delta, s.mobile), f);
      }
    }
  }
}
