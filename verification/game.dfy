/**
 * The per-frame movement rules built on the collision query (main.cpp:32-57,
 * 96-104, 116-143): the player's keyboard step with its shrunken four-corner
 * test, the enemy's chase with its single-probe test, and the camera centre.
 *
 * Vectors are `sf::Vector2f`s in the source; here their components are
 * `real`s. `std::sqrt` is not modelled: every operation that needs the
 * distance takes a `sqrt` function as a parameter, constrained by IsSqrt.
 */
module Game {
  import opened TileMap

  /** A 2-D vector of pixel coordinates or pixel velocities. */
  datatype Vec = Vec(x: real, y: real)
  {
    function Plus(o: Vec): Vec { Vec(x + o.x, y + o.y) }
    function Minus(o: Vec): Vec { Vec(x - o.x, y - o.y) }
    function Scale(k: real): Vec { Vec(x * k, y * k) }
    function Div(k: real): Vec requires k != 0.0 { Vec(x / k, y / k) }
    function SqNorm(): real { x * x + y * y }
  }

  const Zero: Vec := Vec(0.0, 0.0)

  /** An axis-aligned rectangle, as `sf::FloatRect` stores it. */
  datatype Rect = Rect(left: real, top: real, width: real, height: real)

  /** Which of the four movement keys (W, S, A, D) are held during a frame. */
  datatype Keys = Keys(up: bool, down: bool, left: bool, right: bool)

  /** Player speed in pixels per second. */
  const PlayerSpeed: real := 100.0
  /** Where the player and the enemy appear. */
  const PlayerStart: Vec := Vec(64.0, 64.0)
  const EnemyStart: Vec := Vec(120.0, 120.0)
  /** How far the player's collision box is pulled in on every side. */
  const BoxInset: real := 8.0
  /** The enemy chases only a player closer than this. */
  const DetectionRadius: real := 200.0
  /** Enemy speed in pixels per second while chasing. */
  const ChaseSpeed: real := 40.0
  /** Offset of the enemy's single collision probe from its position, on both axes. */
  const ProbeOffset: real := 8.0

  // ---------------------------------------------------------------------
  // Player input
  // ---------------------------------------------------------------------

  /**
   * One component of the movement vector: -speed when only the key toward
   * negative coordinates is held, +speed when only the other one is, and 0
   * when neither or both are.
   */
  function AxisComponent(negative: bool, positive: bool, speed: real): (v: real)
    ensures v == -speed || v == 0.0 || v == speed
    ensures negative == positive ==> v == 0.0
    ensures speed != 0.0 ==> (v == 0.0 <==> negative == positive)
    ensures negative && !positive ==> v == -speed
    ensures positive && !negative ==> v == speed
  {
    if negative == positive then 0.0 else if negative then -speed else speed
  }

  /** The movement vector the held keys ask for: W/S drive y, A/D drive x. */
  function Movement(keys: Keys, speed: real): Vec
  {
    Vec(AxisComponent(keys.left, keys.right, speed), AxisComponent(keys.up, keys.down, speed))
  }

  /**
   * Builds the movement vector the way the frame loop does, starting from zero
   * and adding or subtracting the speed once per held key.
   */
  method AccumulateMovement(keys: Keys, speed: real) returns (movement: Vec)
    ensures movement == Movement(keys, speed)
  {
    movement := Zero;
    if keys.up {
      movement := movement.(y := movement.y - speed);
    }
    if keys.down {
      movement := movement.(y := movement.y + speed);
    }
    if keys.left {
      movement := movement.(x := movement.x - speed);
    }
    if keys.right {
      movement := movement.(x := movement.x + speed);
    }
  }

  /**
   * Diagonal input is not normalised: holding one vertical and one horizontal
   * key gives a vector of length speed * sqrt(2), not speed.
   */
  lemma DiagonalNotNormalised(keys: Keys, speed: real)
    requires keys.up != keys.down && keys.left != keys.right
    ensures Movement(keys, speed).SqNorm() == 2.0 * speed * speed
  {
  }

  // ---------------------------------------------------------------------
  // Player collision and step
  // ---------------------------------------------------------------------

  /** The player's collision box at `pos`: its bounds pulled in by BoxInset on each side. */
  function ShrunkBox(pos: Vec, width: real, height: real): Rect
  {
    Rect(pos.x + BoxInset, pos.y + BoxInset, width - 2.0 * BoxInset, height - 2.0 * BoxInset)
  }

  /** Some corner of the rectangle is blocked. */
  predicate CornerBlocked(b: Rect)
  {
    IsWallAt(b.left, b.top)
    || IsWallAt(b.left + b.width, b.top)
    || IsWallAt(b.left, b.top + b.height)
    || IsWallAt(b.left + b.width, b.top + b.height)
  }

  /** The player at `pos` is blocked when any corner of its shrunken box is. */
  predicate BoxBlocked(pos: Vec, width: real, height: real)
  {
    CornerBlocked(ShrunkBox(pos, width, height))
  }

  /** A position the player may occupy: no corner of its shrunken box is blocked. */
  predicate Clear(pos: Vec, width: real, height: real)
  {
    !BoxBlocked(pos, width, height)
  }

  /**
   * The four probe points of the player at `pos`, written as offsets from
   * `pos`: 8 px in from the left, right, top and bottom edges.
   */
  lemma ClearCorners(pos: Vec, width: real, height: real)
    ensures Clear(pos, width, height) <==>
      !IsWallAt(pos.x + 8.0, pos.y + 8.0)
      && !IsWallAt(pos.x + width - 8.0, pos.y + 8.0)
      && !IsWallAt(pos.x + 8.0, pos.y + height - 8.0)
      && !IsWallAt(pos.x + width - 8.0, pos.y + height - 8.0)
  {
    var b := ShrunkBox(pos, width, height);
    assert b.left == pos.x + 8.0 && b.top == pos.y + 8.0;
    assert b.left + b.width == pos.x + width - 8.0;
    assert b.top + b.height == pos.y + height - 8.0;
    assert Clear(pos, width, height) == !CornerBlocked(b);
  }

  /**
   * Where one frame takes the player: the whole requested move when the
   * target is clear, otherwise nowhere.
   */
  function PlayerStep(pos: Vec, movement: Vec, dt: real, width: real, height: real): (r: Vec)
    ensures r == pos || (r == pos.Plus(movement.Scale(dt)) && Clear(r, width, height))
    ensures Clear(pos.Plus(movement.Scale(dt)), width, height) ==> r == pos.Plus(movement.Scale(dt))
    ensures Clear(pos, width, height) ==> Clear(r, width, height)
  {
    var target := pos.Plus(movement.Scale(dt));
    if BoxBlocked(target, width, height) then pos else target
  }

  /** The player sprite: its position changes, its on-screen size does not. */
  class Player {
    var pos: Vec
    /** Size of the sprite's bounds (texture size times its 0.1 scale). */
    const width: real
    const height: real

    constructor (start: Vec, w: real, h: real)
      ensures pos == start && width == w && height == h
    {
      pos := start;
      width := w;
      height := h;
    }

    /** The sprite's bounds at its current position. */
    function Bounds(): Rect
      reads this
    {
      Rect(pos.x, pos.y, width, height)
    }

    /**
     * One frame of player control: build the movement from the keys, shrink
     * the bounds at the candidate position, probe its four corners and move
     * only if none is blocked.
     */
    method Update(keys: Keys, speed: real, dt: real)
      modifies this`pos
      ensures pos == PlayerStep(old(pos), Movement(keys, speed), dt, width, height)
      ensures pos == old(pos) || pos == old(pos).Plus(Movement(keys, speed).Scale(dt))
      ensures Clear(old(pos), width, height) ==> Clear(pos, width, height)
    {
      var movement := AccumulateMovement(keys, speed);
      var nextPos := pos.Plus(movement.Scale(dt));
      var nextBounds := Bounds();
      nextBounds := nextBounds.(left := nextPos.x + BoxInset, top := nextPos.y + BoxInset);
      nextBounds := nextBounds.(width := nextBounds.width - 2.0 * BoxInset);
      nextBounds := nextBounds.(height := nextBounds.height - 2.0 * BoxInset);
      assert nextBounds == ShrunkBox(nextPos, width, height);
      var blocked := CornerBlocked(nextBounds);
      if !blocked {
        pos := nextPos;
      }
    }
  }

  // ---------------------------------------------------------------------
  // Enemy
  // ---------------------------------------------------------------------

  /** `sqrt` is a square root on the non-negative reals. */
  ghost predicate IsSqrt(sqrt: real -> real)
  {
    forall s :: 0.0 <= s ==> 0.0 <= sqrt(s) && sqrt(s) * sqrt(s) == s
  }

  /** A distance is below the detection radius exactly when its square is below the radius squared. */
  lemma BelowRadius(d: real)
    requires 0.0 <= d
    ensures d < DetectionRadius <==> d * d < DetectionRadius * DetectionRadius
  {
    if d < 200.0 {
      assert d * d <= d * 200.0;
      assert d * 200.0 < 200.0 * 200.0;
    } else {
      assert d * d >= d * 200.0;
      assert d * 200.0 >= 200.0 * 200.0;
    }
  }

  /** A non-zero real has a positive square. */
  lemma PositiveSquare(a: real)
    requires a != 0.0
    ensures 0.0 < a * a
  {
    if a < 0.0 {
      assert a * a == (-a) * (-a);
    }
  }

  /** A non-zero vector has a positive squared length. */
  lemma SqNormPositive(v: Vec)
    requires v != Zero
    ensures 0.0 < v.SqNorm()
  {
    var a, b := v.x, v.y;
    if a != 0.0 {
      PositiveSquare(a);
      assert 0.0 <= b * b;
    } else {
      PositiveSquare(b);
      assert 0.0 <= a * a;
    }
    calc {
      v.SqNorm();
      a * a + b * b;
    >
      0.0;
    }
  }

  /** The distance between two different points is positive. */
  lemma SqrtOfNonZero(v: Vec, sqrt: real -> real)
    requires IsSqrt(sqrt) && v != Zero
    ensures 0.0 < v.SqNorm() && 0.0 < sqrt(v.SqNorm())
  {
    SqNormPositive(v);
    var d := sqrt(v.SqNorm());
    assert 0.0 <= d && d * d == v.SqNorm();
    assert d == 0.0 ==> d * d == 0.0;
  }

  /**
   * Dividing a vector by its length and multiplying by ChaseSpeed gives a
   * vector of length ChaseSpeed, parallel to it and pointing the same way.
   */
  lemma {:induction false} UnitTimesChaseSpeed(diff: Vec, dist: real)
    requires 0.0 < dist && dist * dist == diff.SqNorm()
    ensures var v := diff.Div(dist).Scale(ChaseSpeed);
      v.SqNorm() == ChaseSpeed * ChaseSpeed
      && v.x * diff.y == v.y * diff.x
      && 0.0 < v.x * diff.x + v.y * diff.y
  {
    var v := diff.Div(dist).Scale(ChaseSpeed);
    var k := ChaseSpeed / dist;
    assert v.x == diff.x * k;
    assert v.y == diff.y * k;
    assert 0.0 < k;
    assert k * dist == ChaseSpeed;
    calc {
      v.SqNorm();
      k * k * diff.SqNorm();
      (k * dist) * (k * dist);
    }
    assert v.x * diff.x + v.y * diff.y == k * (dist * dist);
  }

  /**
   * The velocity the enemy at `pos` takes toward `target`: ChaseSpeed along
   * the unit vector to the target while the target is within DetectionRadius,
   * and zero otherwise. The positions must differ, since the unit vector
   * divides by the distance.
   */
  function ChaseVelocity(pos: Vec, target: Vec, sqrt: real -> real): Vec
    requires IsSqrt(sqrt) && pos != target
  {
    var diff := target.Minus(pos);
    var dist := sqrt(diff.SqNorm());
    if dist < DetectionRadius then
      assert dist != 0.0 by { SqrtOfNonZero(diff, sqrt); }
      diff.Div(dist).Scale(ChaseSpeed)
    else
      Zero
  }

  /**
   * The chase velocity, described without the square root: zero at or beyond
   * the detection radius; inside it, of length exactly ChaseSpeed, parallel to
   * the vector to the target and pointing toward it.
   */
  lemma ChaseVelocityMeaning(pos: Vec, target: Vec, sqrt: real -> real)
    requires IsSqrt(sqrt) && pos != target
    ensures var diff := target.Minus(pos);
      var v := ChaseVelocity(pos, target, sqrt);
      (diff.SqNorm() >= DetectionRadius * DetectionRadius ==> v == Zero)
      && (diff.SqNorm() < DetectionRadius * DetectionRadius ==>
            v.SqNorm() == ChaseSpeed * ChaseSpeed
            && v.x * diff.y == v.y * diff.x
            && 0.0 < v.x * diff.x + v.y * diff.y)
  {
    var diff := target.Minus(pos);
    var dist := sqrt(diff.SqNorm());
    SqrtOfNonZero(diff, sqrt);
    BelowRadius(dist);
    if dist < DetectionRadius {
      UnitTimesChaseSpeed(diff, dist);
    }
  }

  /** The enemy's probe point at `pos` is not blocked. */
  predicate ProbeFree(pos: Vec)
  {
    !IsWallAt(pos.x + ProbeOffset, pos.y + ProbeOffset)
  }

  /**
   * Where one frame takes the enemy: the whole move along its velocity when
   * the single probe point at the target is free, otherwise nowhere.
   */
  function EnemyStep(pos: Vec, velocity: Vec, dt: real): (r: Vec)
    ensures r == pos || (r == pos.Plus(velocity.Scale(dt)) && ProbeFree(r))
    ensures ProbeFree(pos.Plus(velocity.Scale(dt))) ==> r == pos.Plus(velocity.Scale(dt))
    ensures ProbeFree(pos) ==> ProbeFree(r)
  {
    var nextPos := pos.Plus(velocity.Scale(dt));
    if ProbeFree(nextPos) then nextPos else pos
  }

  /** An enemy whose target is at or beyond the detection radius stays where it is. */
  lemma IdleEnemyStays(pos: Vec, target: Vec, dt: real, sqrt: real -> real)
    requires IsSqrt(sqrt) && pos != target
    requires target.Minus(pos).SqNorm() >= DetectionRadius * DetectionRadius
    ensures ChaseVelocity(pos, target, sqrt) == Zero
    ensures EnemyStep(pos, ChaseVelocity(pos, target, sqrt), dt) == pos
  {
    var diff := target.Minus(pos);
    var dist := sqrt(diff.SqNorm());
    SqrtOfNonZero(diff, sqrt);
    BelowRadius(dist);
    assert ChaseVelocity(pos, target, sqrt) == Zero;
    assert pos.Plus(Zero.Scale(dt)) == pos;
  }

  /** The chasing enemy: its position and velocity are both overwritten every frame. */
  class Enemy {
    var pos: Vec
    var velocity: Vec

    constructor (start: Vec)
      ensures pos == start && velocity == Zero
    {
      pos := start;
      velocity := Zero;
    }

    /**
     * One frame of enemy behaviour: set the velocity from the distance to the
     * player, then move along it if the probe point at the target is free.
     */
    method Update(dt: real, playerPos: Vec, sqrt: real -> real)
      requires IsSqrt(sqrt) && playerPos != pos
      modifies this
      ensures velocity == ChaseVelocity(old(pos), playerPos, sqrt)
      ensures pos == EnemyStep(old(pos), velocity, dt)
      ensures pos == old(pos) || pos == old(pos).Plus(velocity.Scale(dt))
    {
      var p := pos;
      var diff := playerPos.Minus(p);
      var dist := sqrt(diff.SqNorm());
      SqrtOfNonZero(diff, sqrt);
      if dist < DetectionRadius {
        var direction := diff.Div(dist);
        velocity := direction.Scale(ChaseSpeed);
      } else {
        velocity := Zero;
      }
      var nextPos := p.Plus(velocity.Scale(dt));
      if !IsWallAt(nextPos.x + ProbeOffset, nextPos.y + ProbeOffset) {
        pos := nextPos;
      }
    }
  }

  // ---------------------------------------------------------------------
  // Camera and frame
  // ---------------------------------------------------------------------

  /** The camera centre: the middle of the player's bounds. */
  function CameraCenter(pos: Vec, width: real, height: real): (c: Vec)
    ensures c.x - pos.x == (pos.x + width) - c.x
    ensures c.y - pos.y == (pos.y + height) - c.y
  {
    pos.Plus(Vec(width / 2.0, height / 2.0))
  }

  /**
   * One pass of the game loop's simulation part: the player moves first, the
   * enemy then chases the player's NEW position, and the camera is centred on
   * the player last. The enemy must not stand where the player ends up,
   * since the chase divides by the distance between them.
   */
  method Frame(player: Player, enemy: Enemy, keys: Keys, dt: real, sqrt: real -> real)
    returns (center: Vec)
    requires IsSqrt(sqrt)
    requires enemy.pos != PlayerStep(player.pos, Movement(keys, PlayerSpeed), dt, player.width, player.height)
    modifies player, enemy
    ensures player.pos == PlayerStep(old(player.pos), Movement(keys, PlayerSpeed), dt, player.width, player.height)
    ensures enemy.velocity == ChaseVelocity(old(enemy.pos), player.pos, sqrt)
    ensures enemy.pos == EnemyStep(old(enemy.pos), enemy.velocity, dt)
    ensures center == CameraCenter(player.pos, player.width, player.height)
  {
    player.Update(keys, PlayerSpeed, dt);
    enemy.Update(dt, player.pos, sqrt);
    var bounds := player.Bounds();
    center := player.pos.Plus(Vec(bounds.width / 2.0, bounds.height / 2.0));
  }

  // ---------------------------------------------------------------------
  // Start-up and scenarios
  // ---------------------------------------------------------------------

  /** The open area around the spawn points (rows 3-8, columns 3-13) holds no wall. */
  lemma SpawnAreaFree(x: real, y: real)
    requires 48.0 <= x < 224.0 && 48.0 <= y < 144.0
    ensures !IsWallAt(x, y)
  {
    InsideMapFollowsLevel(x, y);
  }

  /**
   * At start-up both actors stand on free ground: the player's shrunken box
   * at (64, 64) is clear for any sprite narrower than 168 px and shorter than
   * 88 px, and the enemy's probe at (128, 128) is free.
   */
  lemma SpawnPositionsFree(width: real, height: real)
    requires 0.0 <= width < 168.0 && 0.0 <= height < 88.0
    ensures Clear(PlayerStart, width, height)
    ensures ProbeFree(EnemyStart)
  {
    ClearCorners(PlayerStart, width, height);
    SpawnAreaFree(72.0, 72.0);
    SpawnAreaFree(56.0 + width, 72.0);
    SpawnAreaFree(72.0, 56.0 + height);
    SpawnAreaFree(56.0 + width, 56.0 + height);
    SpawnAreaFree(128.0, 128.0);
  }

  /**
   * From the spawn point, holding only the right key for 0.1 s at the normal
   * speed moves a player narrower than 158 px and shorter than 88 px exactly
   * 10 px to the right. A wider sprite can reach the wall block at columns
   * 14-20 and stay put.
   */
  lemma RightStepFromSpawn(width: real, height: real)
    requires 0.0 <= width < 158.0 && 0.0 <= height < 88.0
    ensures PlayerStep(PlayerStart, Movement(Keys(false, false, false, true), PlayerSpeed), 0.1, width, height)
      == Vec(74.0, 64.0)
  {
    var target := Vec(74.0, 64.0);
    assert PlayerStart.Plus(Movement(Keys(false, false, false, true), PlayerSpeed).Scale(0.1)) == target;
    ClearCorners(target, width, height);
    SpawnAreaFree(82.0, 72.0);
    SpawnAreaFree(66.0 + width, 72.0);
    SpawnAreaFree(82.0, 56.0 + height);
    SpawnAreaFree(66.0 + width, 56.0 + height);
  }

  /**
   * Truncation toward zero lets the player stand partly left of the map: in
   * the zero-filled rows a player at x = -20, 16-800 px wide and 16-400 px
   * tall, has its left probes at x = -12, which the query reads as column 0,
   * so the position is clear. A narrower sprite has its right probes at or
   * below x = -16, outside the grid.
   */
  lemma LeftOfMapClear(width: real, height: real)
    requires 16.0 <= width <= 800.0 && 16.0 <= height <= 400.0
    ensures Clear(Vec(-20.0, 200.0), width, height)
  {
    var pos := Vec(-20.0, 200.0);
    ClearCorners(pos, width, height);
    ZeroFilledRowsFree(-12.0, 208.0);
    ZeroFilledRowsFree(width - 28.0, 208.0);
    ZeroFilledRowsFree(-12.0, 192.0 + height);
    ZeroFilledRowsFree(width - 28.0, 192.0 + height);
  }

  /**
   * The enemy at its spawn point with the player one pixel down and right of
   * it: the player is in range, and the enemy heads diagonally toward it at
   * ChaseSpeed.
   */
  lemma EnemyChasesNearbyPlayer(sqrt: real -> real)
    requires IsSqrt(sqrt)
    ensures var v := ChaseVelocity(EnemyStart, Vec(121.0, 121.0), sqrt);
      v.x == v.y && 0.0 < v.x && v.SqNorm() == ChaseSpeed * ChaseSpeed
  {
    ChaseVelocityMeaning(EnemyStart, Vec(121.0, 121.0), sqrt);
  }
}
