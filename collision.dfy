/** Collision detection (components/game-level.tsx:331-338, 496-526):
    the player's and each obstacle's hitboxes are their sprites inset by a
    fixed padding, and two hitboxes collide when they overlap on both axes,
    edges included. */
module Collision {
  import opened Config
  import opened Entities

  /** An axis-aligned rectangle; `top` is above `bottom` (y grows downwards). */
  datatype Rect = Rect(left: real, right: real, top: real, bottom: real)

  predicate InRect(a: Rect, x: real, y: real)
  {
    a.left <= x <= a.right && a.top <= y <= a.bottom
  }

  /** `checkCollision`: the rectangles are not apart on either axis, so
      rectangles that only touch along an edge collide. */
  function CheckCollision(a: Rect, b: Rect): (r: bool)
    ensures r <==> a.left <= b.right && b.left <= a.right && a.top <= b.bottom && b.top <= a.bottom
  {
    !(a.right < b.left || a.left > b.right || a.bottom < b.top || a.top > b.bottom)
  }

  /** For proper rectangles, colliding is the same as sharing a point. */
  lemma CollisionIsSharedPoint(a: Rect, b: Rect)
    requires a.left <= a.right && a.top <= a.bottom
    requires b.left <= b.right && b.top <= b.bottom
    ensures CheckCollision(a, b) <==> exists x: real, y: real :: InRect(a, x, y) && InRect(b, x, y)
  {
    if CheckCollision(a, b) {
      var x := if a.left <= b.left then b.left else a.left;
      var y := if a.top <= b.top then b.top else a.top;
      assert InRect(a, x, y) && InRect(b, x, y);
    }
  }

  /** The player's hitbox: the sprite inset by the player padding on every side. */
  function PlayerHitbox(p: Player, mobile: bool): (r: Rect)
    ensures r.right - r.left == PLAYER_SIZE - 2.0 * PlayerPadding(mobile)
    ensures r.bottom - r.top == PLAYER_SIZE - 2.0 * PlayerPadding(mobile)
    ensures r.left == p.x + PlayerPadding(mobile) && r.top == p.y + PlayerPadding(mobile)
  {
    var pad := PlayerPadding(mobile);
    Rect(p.x + pad, p.x + PLAYER_SIZE - pad, p.y + pad, p.y + PLAYER_SIZE - pad)
  }

  /** An obstacle's hitbox: the sprite inset by the obstacle padding. */
  function ObstacleHitbox(o: Obstacle, mobile: bool): (r: Rect)
    ensures r.right - r.left == o.width - 2.0 * ObstaclePadding(mobile)
    ensures r.bottom - r.top == o.height - 2.0 * ObstaclePadding(mobile)
    ensures r.left == o.x + ObstaclePadding(mobile) && r.top == o.y + ObstaclePadding(mobile)
  {
    var pad := ObstaclePadding(mobile);
    Rect(o.x + pad, o.x + o.width - pad, o.y + pad, o.y + o.height - pad)
  }

  predicate Collides(p: Player, o: Obstacle, mobile: bool)
  {
    CheckCollision(PlayerHitbox(p, mobile), ObstacleHitbox(o, mobile))
  }

  /** The padding makes collisions forgiving: the sprites must overlap by at
      least the two paddings together on each axis before the hitboxes meet.
      Sprites that merely touch, or overlap by less, never collide. */
  lemma PaddingForgives(p: Player, o: Obstacle, mobile: bool)
    ensures Collides(p, o, mobile) ==>
      var inset := PlayerPadding(mobile) + ObstaclePadding(mobile);
      && o.x + inset <= p.x + PLAYER_SIZE && p.x + inset <= o.x + o.width
      && o.y + inset <= p.y + PLAYER_SIZE && p.y + inset <= o.y + o.height
  {
  }

  /** The number of obstacles whose hitboxes meet the player's. */
  function CollisionCount(p: Player, obstacles: seq<Obstacle>, mobile: bool): nat
  {
    if obstacles == [] then 0
    else CollisionCount(p, obstacles[..|obstacles| - 1], mobile)
         + (if Collides(p, obstacles[|obstacles| - 1], mobile) then 1 else 0)
  }

  /** Some obstacle collides exactly when the count is positive. */
  lemma {:induction false} CollisionCountPositive(p: Player, obstacles: seq<Obstacle>, mobile: bool)
    ensures CollisionCount(p, obstacles, mobile) > 0 <==> exists i :: 0 <= i < |obstacles| && Collides(p, obstacles[i], mobile)
  {
    if obstacles != [] {
      var init := obstacles[..|obstacles| - 1];
      CollisionCountPositive(p, init, mobile);
      if CollisionCount(p, init, mobile) > 0 {
        var i :| 0 <= i < |init| && Collides(p, init[i], mobile);
        assert obstacles[i] == init[i];
      }
      if exists i :: 0 <= i < |obstacles| && Collides(p, obstacles[i], mobile) {
        var i :| 0 <= i < |obstacles| && Collides(p, obstacles[i], mobile);
        if i < |init| {
          assert init[i] == obstacles[i];
        }
      }
    }
  }

  /** The collision pass of a tick: visits every obstacle and counts those
      that collide; the source starts one crash timer for each. */
  method CountCollisions(p: Player, obstacles: seq<Obstacle>, mobile: bool) returns (hits: nat)
    ensures hits == CollisionCount(p, obstacles, mobile)
    ensures hits > 0 <==> exists i :: 0 <= i < |obstacles| && Collides(p, obstacles[i], mobile)
  {
    var playerRect := PlayerHitbox(p, mobile);
    hits := 0;
    var i := 0;
    while i < |obstacles|
      invariant 0 <= i <= |obstacles|
      invariant hits == CollisionCount(p, obstacles[..i], mobile)
    {
      assert obstacles[..i + 1][..i] == obstacles[..i];
      if CheckCollision(playerRect, ObstacleHitbox(obstacles[i], mobile)) {
        hits := hits + 1;
      }
      i := i + 1;
    }
    assert obstacles[..i] == obstacles;
    CollisionCountPositive(p, obstacles, mobile);
  }
}
