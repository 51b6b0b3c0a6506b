/** Obstacle generation (components/game-level.tsx:152-329). The random
    numbers the source draws with `Math.random()` are inputs here, each a
    real in [0, 1). */
module Spawning {
  import opened Types
  import opened Config
  import opened Entities

  predicate IsDraw(r: real)
  {
    0.0 <= r < 1.0
  }

  /** The city pair's draws: the two heights and the two pictures. */
  datatype CityDraws = CityDraws(floorHeight: real, airHeight: real, airPick: real, floorPick: real)

  /** One asteroid's draws: its size, the purple picture, its height, the
      random part of its horizontal speed and (red) its vertical speed. */
  datatype AsteroidDraws = AsteroidDraws(size: real, purplePick: real, y: real, speedJitter: real, bounce: real)

  /** All draws one spawn may use; only those of the level are read. */
  datatype SpawnDraws = SpawnDraws(city: CityDraws, category: real, count: real, asteroids: seq<AsteroidDraws>)

  /** The largest burst of asteroids one spawn creates. */
  const MAX_BURST: nat := 6

  predicate ValidCityDraws(d: CityDraws)
  {
    IsDraw(d.floorHeight) && IsDraw(d.airHeight) && IsDraw(d.airPick) && IsDraw(d.floorPick)
  }

  predicate ValidAsteroidDraws(a: AsteroidDraws)
  {
    IsDraw(a.size) && IsDraw(a.purplePick) && IsDraw(a.y) && IsDraw(a.speedJitter) && IsDraw(a.bounce)
  }

  predicate ValidDraws(d: SpawnDraws)
  {
    && ValidCityDraws(d.city) && IsDraw(d.category) && IsDraw(d.count)
    && |d.asteroids| >= MAX_BURST
    && forall a :: a in d.asteroids ==> ValidAsteroidDraws(a)
  }

  /** Is the level's spawn interval over since the last spawn? */
  predicate SpawnDue(level: Level, lastObstacle: int, now: int)
  {
    now - lastObstacle >= SpawnInterval(level)
  }

  // The city level's buildings.

  const CITY_WIDTH: real := 180.0
  /** The least vertical gap between the two buildings of a pair. */
  const MIN_GAP: real := 180.0
  const AIR_PICTURES: seq<nat> := [1, 2, 3, 4]
  const FLOOR_PICTURES: seq<nat> := [1, 4, 3, 2]

  /** `Math.floor(r * 4)`: a picture index. */
  function PictureIndex(r: real): (i: nat)
    requires IsDraw(r)
    ensures i < 4
  {
    (r * 4.0).Floor
  }

  function DrawnFloorHeight(d: CityDraws): real
  {
    d.floorHeight * 180.0 + 120.0
  }

  function DrawnAirHeight(d: CityDraws): real
  {
    d.airHeight * 200.0 + 100.0
  }

  /** The gap the drawn heights would leave between the buildings. */
  function DrawnGap(d: CityDraws): real
  {
    (GAME_HEIGHT - DrawnFloorHeight(d)) - DrawnAirHeight(d)
  }

  /** A building of a pair spawned at time `now`. */
  function Building(now: int, y: real, height: real, piece: CityPiece): Obstacle
  {
    Obstacle(GAME_WIDTH, y, CITY_WIDTH, height, CityObstacle(piece), 0.0, 0.0, false, false, Some(now), false)
  }

  /** The easy level's spawn: one building hanging from the top edge and one
      standing on the ground, at the right edge and sharing the pair
      identifier. When the drawn heights leave less than the minimum gap,
      both buildings are shortened by the same amount so that the gap is
      exactly the minimum. */
  function CityPair(now: int, d: CityDraws): (r: seq<Obstacle>)
    requires ValidCityDraws(d)
    ensures |r| == 2 && r[0].kind == CityObstacle(Air(AIR_PICTURES[PictureIndex(d.airPick)]))
    ensures r[1].kind == CityObstacle(Floor(FLOOR_PICTURES[PictureIndex(d.floorPick)]))
    ensures forall o :: o in r ==>
      && o.x == GAME_WIDTH && o.width == CITY_WIDTH && 0.0 < o.height <= GAME_HEIGHT
      && o.pairId == Some(now) && !o.passed && !o.isScoreCounted && !o.givesPoints
    ensures r[0].y == 0.0 && r[1].y + r[1].height == GAME_HEIGHT
    ensures r[1].y - (r[0].y + r[0].height) >= MIN_GAP
    ensures DrawnGap(d) < MIN_GAP ==> r[1].y - (r[0].y + r[0].height) == MIN_GAP
    ensures DrawnGap(d) >= MIN_GAP ==> r[0].height == DrawnAirHeight(d) && r[1].height == DrawnFloorHeight(d)
  {
    var floorHeight := DrawnFloorHeight(d);
    var airHeight := DrawnAirHeight(d);
    var air := Air(AIR_PICTURES[PictureIndex(d.airPick)]);
    var floor := Floor(FLOOR_PICTURES[PictureIndex(d.floorPick)]);
    var gap := (GAME_HEIGHT - floorHeight) - airHeight;
    if gap < MIN_GAP then
      var adjustment := (MIN_GAP - gap) / 2.0;
      [Building(now, 0.0, airHeight - adjustment, air),
       Building(now, GAME_HEIGHT - (floorHeight - adjustment), floorHeight - adjustment, floor)]
    else
      [Building(now, 0.0, airHeight, air),
       Building(now, GAME_HEIGHT - floorHeight, floorHeight, floor)]
  }

  // The hard level's asteroids.

  /** The three kinds of burst one spawn chooses between. */
  datatype Category = BlueRocks | RedRocks | PurpleRocks

  /** The weighted draw: 40% blue, 20% red, 40% purple. */
  function CategoryOf(r: real): Category
  {
    if r < 0.4 then BlueRocks else if r < 0.6 then RedRocks else PurpleRocks
  }

  /** How many asteroids the burst holds: 1-2 blue or red, 3-6 purple. */
  function BurstSize(cat: Category, r: real): (n: nat)
    requires IsDraw(r)
    ensures cat != PurpleRocks ==> 1 <= n <= 2
    ensures cat == PurpleRocks ==> 3 <= n <= MAX_BURST
  {
    if cat == PurpleRocks then (r * 4.0).Floor + 3 else (r * 2.0).Floor + 1
  }

  /** The horizontal distance between neighbours of a burst. */
  function Stagger(cat: Category): real
  {
    match cat
    case BlueRocks => 200.0
    case RedRocks => 180.0
    case PurpleRocks => 120.0
  }

  /** `r * k` for a draw r: a value in [0, k). */
  function Scale(r: real, k: real): (s: real)
    requires IsDraw(r) && k > 0.0
    ensures 0.0 <= s < k
  {
    r * k
  }

  /** A height for a square asteroid of side `size`: at least 50 from the
      top and ending at least 50 above the bottom edge. */
  function AsteroidY(a: AsteroidDraws, size: real): (y: real)
    requires ValidAsteroidDraws(a) && size < GAME_HEIGHT - 100.0
    ensures 50.0 <= y && y + size <= GAME_HEIGHT - 50.0
  {
    Scale(a.y, GAME_HEIGHT - size - 100.0) + 50.0
  }

  function Rock(x: real, y: real, size: real, color: AsteroidColor, vx: real, vy: real, points: bool): Obstacle
  {
    Obstacle(x, y, size, size, Asteroid(color), vx, vy, points, false, None, false)
  }

  /** The `i`-th asteroid of a burst: blue ones give points and scroll with
      the game, red ones bounce, purple ones fly straight and fast. */
  function MakeAsteroid(cat: Category, i: nat, a: AsteroidDraws, speed: real): (r: Obstacle)
    requires ValidAsteroidDraws(a)
    ensures r.x == GAME_WIDTH + i as real * Stagger(cat)
    ensures r.kind.Asteroid? && r.width == r.height && r.pairId == None && !r.passed && !r.isScoreCounted
    ensures r.givesPoints <==> r.kind.color == Blue
    ensures (r.kind.color == Blue <==> cat == BlueRocks) && (r.kind.color == Red <==> cat == RedRocks)
    ensures 40.0 <= r.height < 105.0 && 50.0 <= r.y && r.y + r.height <= GAME_HEIGHT - 50.0
    ensures speed > 0.0 && cat != BlueRocks ==> r.velocityX < 0.0
  {
    match cat
    case BlueRocks =>
      var size := a.size * 50.0 + 45.0;
      Rock(GAME_WIDTH + i as real * 200.0, AsteroidY(a, size), size, Blue, -speed, 0.0, true)
    case RedRocks =>
      var size := a.size * 55.0 + 50.0;
      Rock(GAME_WIDTH + i as real * 180.0, AsteroidY(a, size), size, Red,
           -(speed + a.speedJitter * 2.0), (a.bounce - 0.5) * 12.0, false)
    case PurpleRocks =>
      var size := a.size * 45.0 + 40.0;
      var color := if a.purplePick < 0.5 then Purple1 else Purple2;
      Rock(GAME_WIDTH + i as real * 120.0, AsteroidY(a, size), size, color,
           -(speed + a.speedJitter * 3.0 + 1.0), 0.0, false)
  }

  /** The hard level's spawn: one weighted draw picks the category and the
      burst holds its asteroids in order, staggered to the right. */
  function Burst(speed: real, d: SpawnDraws): (r: seq<Obstacle>)
    requires ValidDraws(d)
    ensures var cat := CategoryOf(d.category);
      && |r| == BurstSize(cat, d.count)
      && forall i :: 0 <= i < |r| ==> r[i] == MakeAsteroid(cat, i, d.asteroids[i], speed)
  {
    var cat := CategoryOf(d.category);
    var count := BurstSize(cat, d.count);
    seq(count, i requires 0 <= i < count => MakeAsteroid(cat, i, d.asteroids[i], speed))
  }

  /** What `generateObstacle` adds when the spawn interval is over. */
  function NewObstacles(level: Level, now: int, speed: real, d: SpawnDraws): seq<Obstacle>
    requires ValidDraws(d)
  {
    if level == Easy then CityPair(now, d.city) else Burst(speed, d)
  }
}
