# Top-down adventure game: collision and movement model

A Dafny model of the simulation core of a small SFML top-down game (`main.cpp`).
It covers the fixed 38×50 tile map and the collision query `isWallAt`. It also
covers the per-frame movement rules built on them:

- the keyboard-driven player step, with its four-corner test on a shrunken
  bounding box;
- the enemy's chase step, with its single-probe test;
- the camera centre.

Two modules:

- `TileMap` (`tilemap.dfy`) holds the grid, the two truncations toward zero
  that turn a pixel coordinate into a tile index, and `IsWallAt`. Its lemmas
  describe exactly which points are blocked.
- `Game` (`game.dfy`) holds vectors, key state, the `Player` and `Enemy`
  classes with their in-place `Update` methods, the `Frame` method that runs
  one pass of the loop body, and lemmas about the step functions that specify
  those methods.

Modelling choices:

- Pixel coordinates and velocities are `real`s. `static_cast<int>` is
  `TileMap.TruncToInt` (toward zero). C++ integer `/` is `TileMap.TruncDiv`
  (toward zero). Neither is Dafny's floor-based `.Floor` or Euclidean `/`.
- The grid's nine written rows are transcribed value for value. The other 29
  rows are zero, as C++ aggregate initialisation leaves them. The grid is a
  constant.
- The player's sprite width and height come from a texture. They are
  constructor parameters of `Game.Player`.
- The sprite's origin is (0, 0) and it is never rotated, so its global bounds
  start at its position and have its width and height. `Game.Player.Bounds`
  returns exactly that rectangle.
- `std::sqrt` is a parameter `sqrt: real -> real`. `Game.IsSqrt` requires it
  to be an exact square root on the non-negative reals.
- The enemy's velocity is specified by `Game.ChaseVelocity`. The player's new
  position is specified by `Game.PlayerStep` and the enemy's by
  `Game.EnemyStep`. The class methods are proved equal to these functions.

The query blocks a point whose tile index falls outside the grid, but that is
not the same as a point outside the map. Because both conversions truncate
toward zero, a coordinate strictly between -16 and 0 gets index 0 and is not
out of bounds. Only coordinates at or below -16 are (`TileMap.TileIndexOfNegative`, `TileMap.NegativeSliverActsAsZero`,
`Game.LeftOfMapClear`).

## Model

| member | source | states |
|---|---|---|
| `TileMap.Level` | main.cpp:10-20 | the grid the query reads: the written rows padded with zero rows; its shape and every cell are stated by `LevelShape` and `LevelCell` |
| `TileMap.Padded` | main.cpp:10-20 | aggregate initialisation leaves exactly MapHeight rows when fewer are written |
| `TileMap.PaddedRow` | main.cpp:10-20 | the written rows keep their places and every row after them is all zero |
| `TileMap.LevelShape` | main.cpp:5-20 | the grid has 38 rows of 50 cells each |
| `TileMap.TopRowCell` | main.cpp:11 | row 0 is wall in every column |
| `TileMap.BorderRowCell` | main.cpp:12-19 | rows 1, 2, 7 and 8 are grass except a wall at columns 0 and 49 |
| `TileMap.RightBlockRowCell` | main.cpp:14-15 | rows 3 and 4 also have walls at columns 34-40 |
| `TileMap.LeftBlockRowCell` | main.cpp:16-17 | rows 5 and 6 also have walls at columns 14-20 |
| `TileMap.WrittenRowCell` | main.cpp:11-19 | each written row agrees cell by cell with the independent description `LayoutWall` |
| `TileMap.LevelCell` | main.cpp:10-20 | every cell of the whole grid is 0 or 1, and it is 1 exactly where `LayoutWall` says; rows 9-37 are all 0 |
| `TileMap.TruncToInt` | main.cpp:23-24 | the float-to-int cast truncates toward zero: the result is within one unit of the input, on the zero side |
| `TileMap.TruncDiv` | main.cpp:23-24 | C++ integer division by a positive divisor truncates toward zero, for either sign of the dividend |
| `TileMap.TileIndex` | main.cpp:23-24 | the tile index of a pixel coordinate, cast then divided, both truncating toward zero; characterised by `TileIndexOfNonNegative`, `TileIndexOfNegative` and `TileIndexInRange` |
| `TileMap.TileIndexOfNonNegative` | main.cpp:23-24 | for a non-negative coordinate the tile index equals the floor of coordinate / 16 |
| `TileMap.TileIndexOfNegative` | main.cpp:23-26 | a coordinate in (-16, 0) gets tile index 0; the index is negative exactly when the coordinate is at or below -16 |
| `TileMap.TileIndexBelow` | main.cpp:23-26 | the tile index is below n exactly when the coordinate is below 16·n |
| `TileMap.TileIndexInRange` | main.cpp:23-26 | the tile index is in 0..n-1 exactly when the coordinate is in (-16, 16·n), and then it equals the floor-based cell |
| `TileMap.IsWallAt` | main.cpp:22-30 | the collision query: blocked when either tile index is outside the grid, otherwise when the cell holds 1; characterised over the whole plane by `IsWallAtIff` |
| `TileMap.OutsideMapIsBlocked` | main.cpp:26-27 | every point with x ≤ -16, x ≥ 800, y ≤ -16 or y ≥ 608 is blocked |
| `TileMap.InsideMapFollowsLevel` | main.cpp:22-30 | inside (-16, 800) × (-16, 608) a point is blocked exactly when `level` holds 1 at its floor-based cell, i.e. where `LayoutWall` places a wall |
| `TileMap.IsWallAtIff` | main.cpp:22-30 | whole-plane characterisation: blocked exactly when outside (-16, 800) × (-16, 608) or on a wall of the layout |
| `TileMap.NegativeSliverActsAsZero` | main.cpp:23-26 | on either axis, a coordinate in (-16, 0) is queried exactly as coordinate 0 |
| `TileMap.TopRowBlocked` | main.cpp:10-30 | every point with y < 16 is blocked, for any x |
| `TileMap.SideBordersBlocked` | main.cpp:10-30 | for 16 ≤ y < 144, points with x < 16 or x ≥ 784 are blocked |
| `TileMap.ZeroFilledRowsFree` | main.cpp:10-30 | every point with -16 < x < 800 and 144 ≤ y < 608 is free (zero-filled rows) |
| `Game.AxisComponent` | main.cpp:116-120 | a movement component is -speed, 0 or +speed; opposite keys cancel; the negative-direction key alone gives -speed and the other alone +speed; with non-zero speed it is 0 only when both or neither key is held |
| `Game.Movement` | main.cpp:116-120 | the movement vector: A/D set x, W/S set y; each component is described by `AxisComponent`, and `AccumulateMovement` proves the source's sequence of updates produces it |
| `Game.AccumulateMovement` | main.cpp:116-120 | accumulating -=/+= speed per held key gives exactly `Movement(keys, speed)` |
| `Game.DiagonalNotNormalised` | main.cpp:116-120 | one vertical plus one horizontal key gives a vector whose squared length is 2·speed² (so not speed² for a non-zero speed) |
| `Game.ShrunkBox` | main.cpp:123-127 | the next bounds moved to the target and pulled in by 8 px on every side; `ClearCorners` states where its corners lie |
| `Game.CornerBlocked` | main.cpp:129-134 | a rectangle is blocked when any of its four corners is a wall; `ClearCorners` states the four probes in terms of the position |
| `Game.ClearCorners` | main.cpp:123-134 | the probes are (x+8, y+8), (x+w-8, y+8), (x+8, y+h-8) and (x+w-8, y+h-8); clear means none is a wall |
| `Game.PlayerStep` | main.cpp:122-137 | the new position is either the old one or exactly old + movement·dt with a clear box; it moves whenever the target is clear; a clear position stays clear |
| `Game.Player.constructor` | main.cpp:95-97 | the player starts at the given position with the given bounds size |
| `Game.Player.Update` | main.cpp:116-137 | the new position is `PlayerStep` of the old one with the keys' movement: all or nothing, never per axis, and clearness is preserved |
| `Game.SqNormPositive` | main.cpp:45 | a non-zero difference vector has a positive squared length |
| `Game.SqrtOfNonZero` | main.cpp:45-48 | when enemy and player differ, the distance is positive, so `diff / dist` is defined |
| `Game.BelowRadius` | main.cpp:47 | a distance is below 200 exactly when its square is below 40000 |
| `Game.UnitTimesChaseSpeed` | main.cpp:48-49 | diff / dist · 40 has length 40, is parallel to diff and points the same way |
| `Game.ChaseVelocity` | main.cpp:44-52 | the velocity the enemy takes: 40 px/s along the unit vector toward the player inside 200 px, zero otherwise; characterised by `ChaseVelocityMeaning` |
| `Game.ChaseVelocityMeaning` | main.cpp:44-52 | at squared distance ≥ 200², velocity is zero; below it, velocity has length 40 and points toward the player |
| `Game.ProbeFree` | main.cpp:55 | the enemy's single probe, 8 px right of and below the position, is not a wall; `EnemyStep` commits a move only when it holds |
| `Game.EnemyStep` | main.cpp:54-56 | the new position is either the old one or exactly old + velocity·dt with its probe at (+8, +8) free; it moves whenever that probe is free; a free probe stays free |
| `Game.IdleEnemyStays` | main.cpp:47-56 | at or beyond the detection radius the velocity is zero and the position is unchanged |
| `Game.Enemy.constructor` | main.cpp:36-40 | the enemy starts at the given position with zero velocity |
| `Game.Enemy.Update` | main.cpp:42-57 | the velocity field becomes `ChaseVelocity` of the old position; the position becomes `EnemyStep` of it |
| `Game.CameraCenter` | main.cpp:143 | the camera centre is equidistant from the left and right edges, and from the top and bottom edges, of the player's bounds |
| `Game.Frame` | main.cpp:116-143 | one loop pass: the player steps, the enemy chases the player's new position, the camera is centred on the player's new bounds; it needs only that the enemy is not where the player ends up |
| `Game.SpawnAreaFree` | main.cpp:10-30 | rows 3-8, columns 3-13 (pixels [48, 224) × [48, 144)) hold no wall |
| `Game.SpawnPositionsFree` | main.cpp:97-104 | at start-up the player's box at (64, 64) is clear for bounds below 168×88, and the enemy's probe at (128, 128) is free |
| `Game.RightStepFromSpawn` | main.cpp:116-137 | for a sprite narrower than 158 px and shorter than 88 px, holding only D for 0.1 s at speed 100 from (64, 64) moves the player to exactly (74, 64) |
| `Game.LeftOfMapClear` | main.cpp:22-30 | for a sprite 16-800 px wide and 16-400 px tall, a player at (-20, 200) in the zero-filled rows is clear, because its left probes at x = -12 are read as column 0 |
| `Game.EnemyChasesNearbyPlayer` | main.cpp:42-52 | enemy at (120, 120), player at (121, 121): velocity components are equal and positive, with length 40 |

## Left out

- Window creation, event polling, the open/closed loop, the clock, texture
  loading and all drawing are SFML calls and are not modelled. This includes
  the tile render loop and the red-circle fallback loop (main.cpp:61-115,
  144-162).
- Floating point: coordinates and velocities are exact reals. `float`
  rounding is not modelled. Neither is the undefined behaviour of
  `static_cast<int>` on a float outside the `int` range.
- `std::sqrt` is a parameter constrained by `IsSqrt`. The unit vector is
  computed exactly from that `sqrt`; the model does not reproduce the float
  rounding of `diff / dist * 40`.
- Enemy and player at the same point: the source divides by a zero distance
  there. `Game.ChaseVelocity` and `Game.Enemy.Update` exclude that case with a
  precondition. `Game.Frame` excludes only an enemy standing where the player
  is after the player's step, the point the enemy chases.
- Sprite sizes (texture size times the 0.1 and 0.2 scales) are not known. The
  player's width and height are parameters. The enemy's size is never used by
  the logic.
- The frame-rate cap and the real-time clock: `dt` is a parameter.
- `level` is a mutable global in C++ but nothing writes to it. The model
  makes it a constant, so "the grid never changes" holds by construction
  rather than by a lemma.
