/** The obstacle pass of a tick (components/game-level.tsx:414-494): every
    obstacle is moved, an obstacle whose trailing edge was behind the
    player is marked passed and may earn a point (once per city pair and
    tick, or for a point-giving asteroid), obstacles far past the left edge
    are dropped, and the speed grows at score milestones. */
module Scoring {
  import opened Types
  import opened Config
  import opened Entities
  import opened Physics

  /** What every obstacle of one tick's pass shares. */
  datatype Motion = Motion(level: Level, mobile: bool, speed: real, mult: real, playerX: real)

  /** The obstacle's trailing edge is behind the player for the first time.
      This looks at the obstacle as it was at the start of the tick. */
  predicate Crosses(o: Obstacle, playerX: real)
  {
    !o.passed && o.x + o.width < playerX
  }

  /** A building of a city pair on the easy level: scored through its pair. */
  predicate IsCityPair(level: Level, o: Obstacle)
  {
    level == Easy && o.kind.CityObstacle? && o.pairId.Some?
  }

  /** The obstacle as the pass returns it: moved, and marked passed when it
      crosses; a crossing city building is also marked as counted. */
  function StepObstacle(m: Motion, o: Obstacle, c: ChaosDraw): (r: Obstacle)
    ensures r.passed == (o.passed || Crosses(o, m.playerX))
    ensures r.isScoreCounted == (o.isScoreCounted || (Crosses(o, m.playerX) && IsCityPair(m.level, o)))
    ensures r.(passed := o.passed, isScoreCounted := o.isScoreCounted) == Advance(m.level, m.mobile, m.speed, m.mult, o, c)
  {
    var moved := Advance(m.level, m.mobile, m.speed, m.mult, o, c);
    if Crosses(o, m.playerX) then
      if IsCityPair(m.level, o) then moved.(passed := true, isScoreCounted := true)
      else moved.(passed := true)
    else moved
  }

  /** The point an obstacle earns, given the pairs already credited in this
      tick, and the credited pairs afterwards. */
  function Award(m: Motion, o: Obstacle, pairs: set<int>): (r: (nat, set<int>))
    ensures r.0 <= 1
    ensures r.0 == 1 ==> Crosses(o, m.playerX) && (IsCityPair(m.level, o) || (m.level == Hard && o.givesPoints))
    ensures IsCityPair(m.level, o) ==>
      r.0 == (if Crosses(o, m.playerX) && !o.isScoreCounted && o.pairId.value !in pairs then 1 else 0)
    ensures r.1 == if r.0 == 1 && IsCityPair(m.level, o) then pairs + {o.pairId.value} else pairs
  {
    if !Crosses(o, m.playerX) then (0, pairs)
    else if IsCityPair(m.level, o) then
      if !o.isScoreCounted && o.pairId.value !in pairs then (1, pairs + {o.pairId.value}) else (0, pairs)
    else if m.level == Hard && o.givesPoints then (1, pairs)
    else (0, pairs)
  }

  /** The obstacles after the source's `map` over the first `n` of them. */
  function StepAll(m: Motion, obs: seq<Obstacle>, chaos: seq<ChaosDraw>, n: nat): (r: seq<Obstacle>)
    requires n <= |obs| && n <= |chaos|
    ensures |r| == n && forall k :: 0 <= k < n ==> r[k] == StepObstacle(m, obs[k], chaos[k])
  {
    seq(n, k requires 0 <= k < n => StepObstacle(m, obs[k], chaos[k]))
  }

  /** The points earned and the city pairs credited by a pass. */
  datatype Tally = Tally(points: nat, pairs: set<int>)

  /** The running point total and `passedPairs` set of the source's `map`
      after its first `n` obstacles. */
  function TallyPass(m: Motion, obs: seq<Obstacle>, n: nat): (r: Tally)
    requires n <= |obs|
    ensures r.points <= n
  {
    if n == 0 then Tally(0, {})
    else
      var prev := TallyPass(m, obs, n - 1);
      var award := Award(m, obs[n - 1], prev.pairs);
      Tally(prev.points + award.0, award.1)
  }

  /** A city building that credits its pair `p` when it crosses. */
  predicate NewlyScores(m: Motion, o: Obstacle, p: int)
  {
    Crosses(o, m.playerX) && IsCityPair(m.level, o) && o.pairId == Some(p) && !o.isScoreCounted
  }

  /** Some building among the first `n` credits the pair `p`. */
  predicate Credited(m: Motion, obs: seq<Obstacle>, n: nat, p: int)
    requires n <= |obs|
  {
    exists k :: 0 <= k < n && NewlyScores(m, obs[k], p)
  }

  lemma CreditedStep(m: Motion, obs: seq<Obstacle>, n: nat, p: int)
    requires 0 < n <= |obs|
    ensures Credited(m, obs, n, p) <==> Credited(m, obs, n - 1, p) || NewlyScores(m, obs[n - 1], p)
  {
    if Credited(m, obs, n, p) && !NewlyScores(m, obs[n - 1], p) {
      var k :| 0 <= k < n && NewlyScores(m, obs[k], p);
      assert k < n - 1;
    }
  }

  /** On the easy level every point of a pass credits a different pair, and
      the credited pairs are exactly those of the uncounted buildings that
      cross: a pair earns at most one point per tick, whichever of its
      buildings are visited first. */
  lemma {:induction false} EasyPassCreditsPairs(m: Motion, obs: seq<Obstacle>, n: nat)
    requires n <= |obs|
    requires m.level == Easy
    ensures TallyPass(m, obs, n).points == |TallyPass(m, obs, n).pairs|
    ensures forall p :: p in TallyPass(m, obs, n).pairs <==> Credited(m, obs, n, p)
  {
    if n > 0 {
      EasyPassCreditsPairs(m, obs, n - 1);
      var prev := TallyPass(m, obs, n - 1);
      var o := obs[n - 1];
      var award := Award(m, o, prev.pairs);
      if award.0 == 1 {
        assert award.1 == prev.pairs + {o.pairId.value} && o.pairId.value !in prev.pairs;
      }
      forall p
        ensures p in award.1 <==> Credited(m, obs, n, p)
      {
        CreditedStep(m, obs, n, p);
      }
    }
  }

  /** How many obstacles among the first `n` are point-giving and cross. */
  function CrossingScorers(playerX: real, obs: seq<Obstacle>, n: nat): nat
    requires n <= |obs|
  {
    if n == 0 then 0
    else CrossingScorers(playerX, obs, n - 1) + (if Crosses(obs[n - 1], playerX) && obs[n - 1].givesPoints then 1 else 0)
  }

  /** On the hard level a pass earns one point per crossing point-giving
      asteroid and credits no pair. */
  lemma {:induction false} HardPassCountsScorers(m: Motion, obs: seq<Obstacle>, n: nat)
    requires n <= |obs|
    requires m.level == Hard
    ensures TallyPass(m, obs, n).points == CrossingScorers(m.playerX, obs, n)
    ensures TallyPass(m, obs, n).pairs == {}
  {
    if n > 0 {
      HardPassCountsScorers(m, obs, n - 1);
    }
  }

  /** Still close enough to the game area to be kept. */
  predicate OnScreen(o: Obstacle)
  {
    o.x > -o.width - PRUNE_MARGIN
  }

  /** The source's `filter`: drops the obstacles that scrolled too far left,
      whatever their score or collision state. */
  function Prune(s: seq<Obstacle>): (r: seq<Obstacle>)
    ensures forall o :: o in r <==> o in s && OnScreen(o)
    ensures |r| <= |s|
  {
    if s == [] then []
    else (if OnScreen(s[0]) then [s[0]] else []) + Prune(s[1..])
  }

  /** The filter keeps the order of what it keeps: pruning a concatenation
      prunes each part. */
  lemma {:induction false} PruneAppend(a: seq<Obstacle>, b: seq<Obstacle>)
    ensures Prune(a + b) == Prune(a) + Prune(b)
  {
    if a == [] {
      assert a + b == b;
    } else {
      assert (a + b)[0] == a[0];
      assert (a + b)[1..] == a[1..] + b;
      PruneAppend(a[1..], b);
    }
  }

  /** The filter drops nothing that is still on screen, duplicates included. */
  lemma {:induction false} PruneKeepsOnScreen(s: seq<Obstacle>)
    requires forall i :: 0 <= i < |s| ==> OnScreen(s[i])
    ensures Prune(s) == s
  {
    if s != [] {
      PruneKeepsOnScreen(s[1..]);
    }
  }

  /** The speed after the score total became `total`: it grows by 5% (up to
      the cap) only when the total is a multiple of 5 no larger than 50. */
  function Escalate(total: int, speed: real, cap: real): (r: real)
    ensures total % SCORE_MILESTONE != 0 || total > ESCALATION_CEILING ==> r == speed
    ensures total % SCORE_MILESTONE == 0 && total <= ESCALATION_CEILING ==> r == Min(speed * SPEED_GROWTH, cap)
    ensures 0.0 <= speed <= cap ==> speed <= r <= cap
    ensures r == speed || r == cap || r == speed * SPEED_GROWTH
  {
    if total % SCORE_MILESTONE == 0 && total <= ESCALATION_CEILING then Min(speed * SPEED_GROWTH, cap) else speed
  }
}
