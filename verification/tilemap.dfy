/**
 * The tile map and the collision query built on it (main.cpp:5-30).
 *
 * Pixel coordinates are C++ `float`s in the source; here they are `real`s.
 * The query turns a coordinate into a tile index with two truncations toward
 * zero (the float-to-int cast, then C++ integer division), which differ from
 * Dafny's floor-based `.Floor` and Euclidean `/` for negative values, so both
 * are written out explicitly.
 */
module TileMap {

  /** Side of one square tile, in pixels. */
  const TileSize: int := 16
  /** Number of tile columns. */
  const MapWidth: int := 50
  /** Number of tile rows. */
  const MapHeight: int := 38

  /** Tile kinds stored in the grid. */
  const Grass: int := 0
  const Wall: int := 1

  /**
   * The nine rows the source writes out, row 0 first. Each row holds the
   * source's fifty values in order, grouped ten at a time.
   */
  const WrittenRows: seq<seq<int>> := [
      [1, 1, 1, 1, 1, 1, 1, 1, 1, 1] + [1, 1, 1, 1, 1, 1, 1, 1, 1, 1] + [1, 1, 1, 1, 1, 1, 1, 1, 1, 1] + [1, 1, 1, 1, 1, 1, 1, 1, 1, 1] + [1, 1, 1, 1, 1, 1, 1, 1, 1, 1],
      [1, 0, 0, 0, 0, 0, 0, 0, 0, 0] + [0, 0, 0, 0, 0, 0, 0, 0, 0, 0] + [0, 0, 0, 0, 0, 0, 0, 0, 0, 0] + [0, 0, 0, 0, 0, 0, 0, 0, 0, 0] + [0, 0, 0, 0, 0, 0, 0, 0, 0, 1],
      [1, 0, 0, 0, 0, 0, 0, 0, 0, 0] + [0, 0, 0, 0, 0, 0, 0, 0, 0, 0] + [0, 0, 0, 0, 0, 0, 0, 0, 0, 0] + [0, 0, 0, 0, 0, 0, 0, 0, 0, 0] + [0, 0, 0, 0, 0, 0, 0, 0, 0, 1],
      [1, 0, 0, 0, 0, 0, 0, 0, 0, 0] + [0, 0, 0, 0, 0, 0, 0, 0, 0, 0] + [0, 0, 0, 0, 0, 0, 0, 0, 0, 0] + [0, 0, 0, 0, 1, 1, 1, 1, 1, 1] + [1, 0, 0, 0, 0, 0, 0, 0, 0, 1],
      [1, 0, 0, 0, 0, 0, 0, 0, 0, 0] + [0, 0, 0, 0, 0, 0, 0, 0, 0, 0] + [0, 0, 0, 0, 0, 0, 0, 0, 0, 0] + [0, 0, 0, 0, 1, 1, 1, 1, 1, 1] + [1, 0, 0, 0, 0, 0, 0, 0, 0, 1],
      [1, 0, 0, 0, 0, 0, 0, 0, 0, 0] + [0, 0, 0, 0, 1, 1, 1, 1, 1, 1] + [1, 0, 0, 0, 0, 0, 0, 0, 0, 0] + [0, 0, 0, 0, 0, 0, 0, 0, 0, 0] + [0, 0, 0, 0, 0, 0, 0, 0, 0, 1],
      [1, 0, 0, 0, 0, 0, 0, 0, 0, 0] + [0, 0, 0, 0, 1, 1, 1, 1, 1, 1] + [1, 0, 0, 0, 0, 0, 0, 0, 0, 0] + [0, 0, 0, 0, 0, 0, 0, 0, 0, 0] + [0, 0, 0, 0, 0, 0, 0, 0, 0, 1],
      [1, 0, 0, 0, 0, 0, 0, 0, 0, 0] + [0, 0, 0, 0, 0, 0, 0, 0, 0, 0] + [0, 0, 0, 0, 0, 0, 0, 0, 0, 0] + [0, 0, 0, 0, 0, 0, 0, 0, 0, 0] + [0, 0, 0, 0, 0, 0, 0, 0, 0, 1],
      [1, 0, 0, 0, 0, 0, 0, 0, 0, 0] + [0, 0, 0, 0, 0, 0, 0, 0, 0, 0] + [0, 0, 0, 0, 0, 0, 0, 0, 0, 0] + [0, 0, 0, 0, 0, 0, 0, 0, 0, 0] + [0, 0, 0, 0, 0, 0, 0, 0, 0, 1]
    ]

  /** A row the aggregate initialiser does not mention: every cell is zero, i.e. grass. */
  function GrassRow(): seq<int> { seq(MapWidth, _ => Grass) }

  /**
   * Aggregate initialisation of the grid: the rows the initialiser gives,
   * followed by zero rows until there are MapHeight rows in all.
   */
  function Padded(rows: seq<seq<int>>): (grid: seq<seq<int>>)
    ensures |grid| == if |rows| < MapHeight then MapHeight else |rows|
    decreases MapHeight - |rows|
  {
    if |rows| >= MapHeight then rows else Padded(rows + [GrassRow()])
  }

  /** Padding keeps the given rows in place and adds only zero rows after them. */
  lemma {:induction false} PaddedRow(rows: seq<seq<int>>, r: int)
    requires 0 <= r < |Padded(rows)|
    ensures Padded(rows)[r] == if r < |rows| then rows[r] else GrassRow()
    decreases MapHeight - |rows|
  {
    if |rows| < MapHeight {
      PaddedRow(rows + [GrassRow()], r);
    }
  }

  /**
   * The whole grid, indexed [row][column]. Rows 9-37 are not written in the
   * source, so aggregate initialisation fills them with zeros. The grid is a
   * constant: nothing writes to it.
   */
  function Level(): seq<seq<int>> { Padded(WrittenRows) }

  /**
   * An independent description of where the walls are: the whole top row,
   * the left and right borders of rows 1-8, and two blocks of seven tiles
   * (rows 3-4 at columns 34-40, rows 5-6 at columns 14-20).
   */
  predicate LayoutWall(row: int, col: int)
  {
    row == 0
    || (1 <= row <= 8 && (col == 0 || col == MapWidth - 1))
    || ((row == 3 || row == 4) && 34 <= col <= 40)
    || ((row == 5 || row == 6) && 14 <= col <= 20)
  }

  /** The grid has MapHeight rows of MapWidth cells each. */
  lemma LevelShape()
    ensures |Level()| == MapHeight
    ensures forall r :: 0 <= r < MapHeight ==> |Level()[r]| == MapWidth
  {
    forall r | 0 <= r < MapHeight
      ensures |Level()[r]| == MapWidth
    {
      PaddedRow(WrittenRows, r);
      if r < |WrittenRows| {
        WrittenRowCell(r, 0);
      }
    }
  }

  /** Row 0 is wall from end to end. */
  lemma TopRowCell(r: int, c: int)
    requires (r == 0) && 0 <= c < MapWidth
    ensures |WrittenRows[r]| == MapWidth
    ensures WrittenRows[r][c] == (if LayoutWall(r, c) then Wall else Grass)
  {
    assert WrittenRows[r] == WrittenRows[0];
  }

  /** Rows 1, 2, 7 and 8 are grass between a wall at each end. */
  lemma BorderRowCell(r: int, c: int)
    requires (r == 1 || r == 2 || r == 7 || r == 8) && 0 <= c < MapWidth
    ensures |WrittenRows[r]| == MapWidth
    ensures WrittenRows[r][c] == (if LayoutWall(r, c) then Wall else Grass)
  {
    assert WrittenRows[r] == WrittenRows[1];
  }

  /** Rows 3 and 4 add a block of walls at columns 34-40. */
  lemma RightBlockRowCell(r: int, c: int)
    requires (r == 3 || r == 4) && 0 <= c < MapWidth
    ensures |WrittenRows[r]| == MapWidth
    ensures WrittenRows[r][c] == (if LayoutWall(r, c) then Wall else Grass)
  {
    assert WrittenRows[r] == WrittenRows[3];
  }

  /** Rows 5 and 6 add a block of walls at columns 14-20. */
  lemma LeftBlockRowCell(r: int, c: int)
    requires (r == 5 || r == 6) && 0 <= c < MapWidth
    ensures |WrittenRows[r]| == MapWidth
    ensures WrittenRows[r][c] == (if LayoutWall(r, c) then Wall else Grass)
  {
    assert WrittenRows[r] == WrittenRows[5];
  }

  /** The written rows agree with LayoutWall. */
  lemma WrittenRowCell(r: int, c: int)
    requires 0 <= r < |WrittenRows| && 0 <= c < MapWidth
    ensures |WrittenRows[r]| == MapWidth
    ensures WrittenRows[r][c] == (if LayoutWall(r, c) then Wall else Grass)
  {
    if r == 0 {
      TopRowCell(r, c);
    } else if r == 3 || r == 4 {
      RightBlockRowCell(r, c);
    } else if r == 5 || r == 6 {
      LeftBlockRowCell(r, c);
    } else {
      BorderRowCell(r, c);
    }
  }

  /** Every cell is grass or wall, and it is a wall exactly where LayoutWall says. */
  lemma LevelCell(r: int, c: int)
    requires 0 <= r < MapHeight && 0 <= c < MapWidth
    ensures |Level()| == MapHeight && |Level()[r]| == MapWidth
    ensures Level()[r][c] == (if LayoutWall(r, c) then Wall else Grass)
  {
    LevelShape();
    PaddedRow(WrittenRows, r);
    if r < |WrittenRows| {
      WrittenRowCell(r, c);
    }
  }

  /** The cell at an in-grid (row, column), as the source reads `level[row][col]`. */
  function LevelAt(row: int, col: int): int
    requires 0 <= row < MapHeight && 0 <= col < MapWidth
  {
    LevelShape();
    Level()[row][col]
  }

  /** `static_cast<int>` of a float: truncation toward zero. */
  function TruncToInt(v: real): (i: int)
    ensures 0.0 <= v ==> i as real <= v < i as real + 1.0
    ensures v < 0.0 ==> i as real - 1.0 < v <= i as real
  {
    if 0.0 <= v then v.Floor else -((-v).Floor)
  }

  /** Division of a non-negative dividend: the quotient brackets the dividend from below. */
  lemma DivBrackets(a: int, b: int)
    requires 0 <= a && 0 < b
    ensures 0 <= a / b && (a / b) * b <= a < (a / b) * b + b
  {
    assert a == (a / b) * b + a % b && 0 <= a % b < b;
  }

  /** C++ integer division by a positive divisor: the quotient is truncated toward zero. */
  function TruncDiv(a: int, b: int): (q: int)
    requires 0 < b
    ensures 0 <= a ==> 0 <= q && q * b <= a < q * b + b
    ensures a < 0 ==> q <= 0 && q * b - b < a <= q * b
  {
    if 0 <= a then
      DivBrackets(a, b);
      a / b
    else
      var m := (-a) / b;
      DivBrackets(-a, b);
      assert (-m) * b == -(m * b);
      -m
  }

  /** The tile index the query computes for one pixel coordinate. */
  function TileIndex(v: real): int
  {
    TruncDiv(TruncToInt(v), TileSize)
  }

  /**
   * The collision query: a point is blocked when its tile index falls outside
   * the grid on either axis, and otherwise when its cell holds a wall.
   */
  predicate IsWallAt(x: real, y: real)
  {
    var tileX := TileIndex(x);
    var tileY := TileIndex(y);
    if tileX < 0 || tileX >= MapWidth || tileY < 0 || tileY >= MapHeight then
      true
    else
      LevelAt(tileY, tileX) == Wall
  }

  /**
   * A floor-based reading of the tile index, independent of the two
   * truncations: the tile a non-negative coordinate lies in, and tile 0 for a
   * negative one.
   */
  function FloorCell(v: real): int
  {
    if v < 0.0 then 0 else (v / TileSize as real).Floor
  }

  /** For a non-negative coordinate the truncating conversion agrees with floor division by the tile size. */
  lemma TileIndexOfNonNegative(v: real)
    requires 0.0 <= v
    ensures TileIndex(v) == (v / TileSize as real).Floor
  {
    var t := TruncToInt(v);
    var q := TruncDiv(t, TileSize);
    assert (q * TileSize) as real <= t as real < (q * TileSize + TileSize) as real;
    assert q as real * 16.0 <= v < q as real * 16.0 + 16.0;
    assert q as real <= v / 16.0 < q as real + 1.0;
  }

  /**
   * Truncation toward zero sends every coordinate strictly between -16 and 0
   * to tile 0, so a point up to one tile left of (or above) the map is NOT
   * reported as outside it; only coordinates at or below -16 give a negative
   * index.
   */
  lemma TileIndexOfNegative(v: real)
    requires v < 0.0
    ensures -16.0 < v ==> TileIndex(v) == 0
    ensures v <= -16.0 <==> TileIndex(v) < 0
  {
    var t := TruncToInt(v);
    if -16.0 < v {
      assert -16 < t <= 0;
    } else {
      assert t <= -16;
    }
  }

  /** A coordinate's tile index is below `n` (n > 0) exactly when the coordinate is below n tiles. */
  lemma TileIndexBelow(v: real, n: int)
    requires 0 < n
    ensures TileIndex(v) < n <==> v < (n * TileSize) as real
  {
    if 0.0 <= v {
      TileIndexOfNonNegative(v);
      assert (v / 16.0).Floor < n <==> v / 16.0 < n as real;
    } else {
      TileIndexOfNegative(v);
    }
  }

  /** The tile index lies inside 0..n-1 exactly when the coordinate lies strictly between -16 and n tiles. */
  lemma {:induction false} TileIndexInRange(v: real, n: int)
    requires 0 < n
    ensures 0 <= TileIndex(v) < n <==> -16.0 < v < (n * TileSize) as real
    ensures 0 <= TileIndex(v) < n ==> TileIndex(v) == FloorCell(v)
  {
    TileIndexBelow(v, n);
    if 0.0 <= v {
      TileIndexOfNonNegative(v);
    } else {
      TileIndexOfNegative(v);
    }
  }

  /** The query is fail-safe: any point whose tile index falls outside the grid is blocked. */
  lemma OutsideMapIsBlocked(x: real, y: real)
    requires x <= -16.0 || 800.0 <= x || y <= -16.0 || 608.0 <= y
    ensures IsWallAt(x, y)
  {
    TileIndexInRange(x, MapWidth);
    TileIndexInRange(y, MapHeight);
  }

  /**
   * Inside the range the query accepts, a point is blocked exactly when the
   * grid cell holding it (found by floor division) is a wall, which is
   * exactly where LayoutWall places one.
   */
  lemma InsideMapFollowsLevel(x: real, y: real)
    requires -16.0 < x < 800.0 && -16.0 < y < 608.0
    ensures 0 <= FloorCell(x) < MapWidth && 0 <= FloorCell(y) < MapHeight
    ensures IsWallAt(x, y) <==> LevelAt(FloorCell(y), FloorCell(x)) == Wall
    ensures IsWallAt(x, y) <==> LayoutWall(FloorCell(y), FloorCell(x))
  {
    TileIndexInRange(x, MapWidth);
    TileIndexInRange(y, MapHeight);
    LevelCell(FloorCell(y), FloorCell(x));
  }

  /** Whole-map characterisation of the query: outside the accepted range, or on a wall of the layout. */
  lemma IsWallAtIff(x: real, y: real)
    ensures IsWallAt(x, y) <==>
      !(-16.0 < x < 800.0 && -16.0 < y < 608.0) || LayoutWall(FloorCell(y), FloorCell(x))
  {
    if -16.0 < x < 800.0 && -16.0 < y < 608.0 {
      InsideMapFollowsLevel(x, y);
    } else {
      OutsideMapIsBlocked(x, y);
    }
  }

  /** A coordinate between -16 and 0 is queried as if it were 0, on either axis. */
  lemma NegativeSliverActsAsZero(v: real, other: real)
    requires -16.0 < v < 0.0
    ensures IsWallAt(v, other) == IsWallAt(0.0, other)
    ensures IsWallAt(other, v) == IsWallAt(other, 0.0)
  {
    TileIndexOfNegative(v);
    TileIndexOfNonNegative(0.0);
  }

  /** Row 0 is all wall: every point above y = 16 is blocked, wherever x is. */
  lemma TopRowBlocked(x: real, y: real)
    requires y < 16.0
    ensures IsWallAt(x, y)
  {
    IsWallAtIff(x, y);
    if -16.0 < y {
      TileIndexInRange(y, 1);
    }
  }

  /** Rows 1-8 have a wall at column 0 and at column 49. */
  lemma SideBordersBlocked(x: real, y: real)
    requires 16.0 <= y < 144.0
    requires x < 16.0 || 784.0 <= x
    ensures IsWallAt(x, y)
  {
    IsWallAtIff(x, y);
    TileIndexOfNonNegative(y);
    if -16.0 < x < 800.0 && 0.0 <= x {
      TileIndexOfNonNegative(x);
    }
  }

  /**
   * Rows 9-37 are zero-filled grass: every point from y = 144 down to the
   * bottom of the map, across its whole width, is free.
   */
  lemma ZeroFilledRowsFree(x: real, y: real)
    requires -16.0 < x < 800.0 && 144.0 <= y < 608.0
    ensures !IsWallAt(x, y)
  {
    InsideMapFollowsLevel(x, y);
    TileIndexOfNonNegative(y);
  }
}
