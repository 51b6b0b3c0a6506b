/** The records the simulation works on (components/game-level.tsx:18-44). */
module Entities {
  import opened Types

  /** The player's sprite: top-left corner and vertical velocity. */
  datatype Player = Player(x: real, y: real, velocityY: real)

  /** The city level's buildings: one hangs from the top edge ("air"), one
      stands on the ground ("floor"); `variant` is the picture, 1 to 4. */
  datatype CityPiece = Air(variant: nat) | Floor(variant: nat)

  datatype AsteroidColor = Blue | Red | Purple1 | Purple2

  datatype Kind = CityObstacle(piece: CityPiece) | Asteroid(color: AsteroidColor)

  /** An obstacle. A velocity of 0.0 stands for an absent one: the source
      reads its optional velocities through `v || fallback`, which treats
      an absent value and 0 alike. `pairId` holds the spawn time that the
      source writes into the pair's identifier `pair-<time>`. */
  datatype Obstacle = Obstacle(
    x: real,
    y: real,
    width: real,
    height: real,
    kind: Kind,
    velocityX: real,
    velocityY: real,
    givesPoints: bool,
    passed: bool,
    pairId: Option<int>,
    isScoreCounted: bool)

  /** JavaScript's `v || fallback` for an optional number. */
  function OrElse(v: real, fallback: real): real
  {
    if v != 0.0 then v else fallback
  }
}
