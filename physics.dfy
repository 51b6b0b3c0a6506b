/** Motion within one tick (components/game-level.tsx:343-361, 385-460):
    the step multiplier derived from the frame time, the player's vertical
    integration with its screen bounds, and each obstacle kind's motion. */
module Physics {
  import opened Types
  import opened Config
  import opened Entities

  function Min(a: real, b: real): real
  {
    if a <= b then a else b
  }

  function Max(a: real, b: real): real
  {
    if a <= b then b else a
  }

  /** The step multiplier for a frame that came `delta` ms after the
      previous one: the delta is clamped to two nominal frames and measured
      in nominal frames. Frames that are not skipped by the throttle get a
      multiplier between the throttle's ratio and 2. */
  function StepMultiplier(delta: real, mobile: bool): (r: real)
    ensures r <= 2.0
    ensures delta <= 2.0 * FixedDelta(mobile) ==> r * FixedDelta(mobile) == delta
    ensures delta > 2.0 * FixedDelta(mobile) ==> r == 2.0
    ensures delta >= FrameThreshold(mobile) ==> r >= (if mobile then 1.5 else 0.8)
  {
    Min(delta, FixedDelta(mobile) * 2.0) / FixedDelta(mobile)
  }

  /** The vertical acceleration of a tick: lift while the city player holds,
      gravity otherwise. */
  function Accel(level: Level, holding: bool): real
  {
    if level == Easy && holding then RiseForce(level) else Gravity(level)
  }

  /** The outcome of moving the player: a new sprite, or the fall below the
      bottom edge, which ends the run and leaves the sprite where it was. */
  datatype PlayerStep = Moved(next: Player) | FellOff

  /** The player's step. The height advances with the velocity the player
      had BEFORE this tick's acceleration; the top edge stops the player;
      falling past the bottom edge is reported instead of a move. */
  function StepPlayer(level: Level, holding: bool, p: Player, mult: real): (r: PlayerStep)
    ensures r.FellOff? <==> p.y + p.velocityY * mult > PLAYER_MAX_Y
    ensures r.Moved? ==> r.next.x == p.x && 0.0 <= r.next.y <= PLAYER_MAX_Y
    ensures r.Moved? && p.y + p.velocityY * mult < 0.0 ==> r.next.y == 0.0 && r.next.velocityY == 0.0
    ensures r.Moved? && p.y + p.velocityY * mult >= 0.0 ==>
      r.next.y == p.y + p.velocityY * mult && r.next.velocityY == p.velocityY + Accel(level, holding) * mult
  {
    var newY := p.y + p.velocityY * mult;
    var newVelocityY := p.velocityY + Accel(level, holding) * mult;
    if newY < 0.0 then Moved(p.(y := 0.0, velocityY := 0.0))
    else if newY > GAME_HEIGHT - PLAYER_SIZE then FellOff
    else Moved(p.(y := newY, velocityY := newVelocityY))
  }

  /** The two random draws a red asteroid may use in a tick: `trigger`
      decides whether a random kick happens, `impulse` sizes it. */
  datatype ChaosDraw = ChaosDraw(trigger: real, impulse: real)

  /** Does the vertical velocity pick up a random kick this tick? */
  predicate Kicked(c: ChaosDraw, mult: real)
  {
    c.trigger < 0.04 * mult
  }

  /** A red asteroid's free motion: it moves by its own velocity, its
      vertical velocity is reflected and damped by 0.8 when the unclamped
      height reaches either wall, a random kick may follow, and the height
      is clamped back into the game area. */
  function RedMove(o: Obstacle, speed: real, mult: real, c: ChaosDraw): (r: Obstacle)
    ensures r.(x := o.x, y := o.y, velocityY := o.velocityY) == o
    ensures r.x == o.x + OrElse(o.velocityX, -speed) * mult
    ensures o.height <= GAME_HEIGHT ==> 0.0 <= r.y <= GAME_HEIGHT - o.height
    ensures 0.0 < o.y + o.velocityY * mult < GAME_HEIGHT - o.height ==> r.y == o.y + o.velocityY * mult
    ensures o.height <= GAME_HEIGHT && o.y + o.velocityY * mult <= 0.0 ==> r.y == 0.0
    ensures o.height <= GAME_HEIGHT && o.y + o.velocityY * mult >= GAME_HEIGHT - o.height ==> r.y == GAME_HEIGHT - o.height
    ensures Kicked(c, mult) ==>
      r.velocityY == (if o.y + o.velocityY * mult <= 0.0 || o.y + o.velocityY * mult >= GAME_HEIGHT - o.height
                      then -o.velocityY * 0.8 else o.velocityY) + (c.impulse - 0.5) * 8.0
    ensures !Kicked(c, mult) ==>
      r.velocityY == if o.y + o.velocityY * mult <= 0.0 || o.y + o.velocityY * mult >= GAME_HEIGHT - o.height
                     then -o.velocityY * 0.8 else o.velocityY
  {
    var newX := o.x + OrElse(o.velocityX, -speed) * mult;
    var newY := o.y + o.velocityY * mult;
    var bounced := if newY <= 0.0 || newY >= GAME_HEIGHT - o.height then -o.velocityY * 0.8 else o.velocityY;
    var newVelocityY := if Kicked(c, mult) then bounced + (c.impulse - 0.5) * 8.0 else bounced;
    o.(x := newX, y := Max(0.0, Min(GAME_HEIGHT - o.height, newY)), velocityY := newVelocityY)
  }

  /** Obstacles that simply scroll left at the game speed: everything on a
      mobile device, and on a desktop all but the red and purple asteroids
      of the hard level. */
  predicate MovesLinearly(level: Level, mobile: bool, o: Obstacle)
  {
    mobile || !(level == Hard && o.kind.Asteroid?) || o.kind.color == Blue
  }

  /** One obstacle's motion in a tick. */
  function Advance(level: Level, mobile: bool, speed: real, mult: real, o: Obstacle, c: ChaosDraw): (r: Obstacle)
    ensures r.(x := o.x, y := o.y, velocityY := o.velocityY) == o
    ensures MovesLinearly(level, mobile, o) ==> r == o.(x := o.x - speed * mult)
    ensures !MovesLinearly(level, mobile, o) && o.kind.color.Red? ==> r == RedMove(o, speed, mult, c)
    ensures !MovesLinearly(level, mobile, o) && !o.kind.color.Red? ==>
      r == o.(x := o.x + OrElse(o.velocityX, -speed) * mult)
    ensures o.height <= GAME_HEIGHT && 0.0 <= o.y <= GAME_HEIGHT - o.height ==> 0.0 <= r.y <= GAME_HEIGHT - r.height
  {
    if mobile then o.(x := o.x - speed * mult)
    else if level == Hard && o.kind.Asteroid? then
      match o.kind.color
      case Blue => o.(x := o.x - speed * mult)
      case Red => RedMove(o, speed, mult, c)
      case _ => o.(x := o.x + OrElse(o.velocityX, -speed) * mult)
    else o.(x := o.x - speed * mult)
  }
}
