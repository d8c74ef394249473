/** The brick walls of the five levels. Each level is a layout over a grid of
    ten columns; a brick stands in every cell of the layout, row by row from
    the top and left to right within a row, coloured by its row. */
module Levels {
  import opened Geometry
  import opened GameObjects

  const BrickWidth := 75
  const BrickHeight := 20
  const BrickPadding := 5
  const WallStartY := 50
  const WallColumns := 10

  /** Red, orange, yellow and green, cycled by row. */
  const BrickColors: seq<Color> := [Color(178, 34, 34), Color(255, 165, 0), Color(255, 215, 0), Color(50, 205, 50)]

  /** The brick of the cell at (`row`, `col`): x = col * (75 + 5) + 5 and
      y = row * (20 + 5) + 50, written out as numerals. */
  function BrickAt(row: nat, col: nat): Brick
  {
    Brick(Rect(col * 80 + 5, row * 25 + 50, 75, 20), BrickColors[row % 4])
  }

  /** Level 2: a diamond. */
  const Diamond: seq<seq<int>> := [
    [0, 0, 0, 1, 1, 1, 1, 0, 0, 0],
    [0, 0, 1, 1, 1, 1, 1, 1, 0, 0],
    [0, 1, 1, 1, 1, 1, 1, 1, 1, 0],
    [1, 1, 1, 1, 1, 1, 1, 1, 1, 1],
    [1, 1, 1, 1, 1, 1, 1, 1, 1, 1],
    [0, 1, 1, 1, 1, 1, 1, 1, 1, 0],
    [0, 0, 1, 1, 1, 1, 1, 1, 0, 0],
    [0, 0, 0, 1, 1, 1, 1, 0, 0, 0]
  ]

  /** Level 5: rows with gaps. */
  const Gaps: seq<seq<int>> := [
    [1, 0, 1, 0, 1, 1, 0, 1, 0, 1],
    [1, 1, 1, 1, 1, 1, 1, 1, 1, 1],
    [0, 1, 0, 1, 1, 1, 1, 0, 1, 0],
    [1, 1, 1, 1, 0, 0, 1, 1, 1, 1],
    [1, 0, 1, 0, 1, 1, 0, 1, 0, 1],
    [1, 1, 1, 1, 1, 1, 1, 1, 1, 1]
  ]

  /** How many grid rows the layout of `level` spans: four full rows, the
      eight diamond rows, six pyramid, checkerboard or gapped rows; none for
      a level without a layout. */
  function LayoutRows(level: int): nat
  {
    if level == 1 then 4
    else if level == 2 then 8
    else if level == 3 || level == 4 || level == 5 then 6
    else 0
  }

  /** Level 1: every cell of its four rows. */
  predicate FullCell(row: int, col: int)
  {
    0 <= row < 4 && 0 <= col < 10
  }

  /** Level 2: the cells the diamond table marks. */
  predicate DiamondCell(row: int, col: int)
  {
    0 <= row < 8 && 0 <= col < 10 && Diamond[row][col] != 0
  }

  /** Level 3: a pyramid whose row r spans the columns r to 9 - r. */
  predicate PyramidCell(row: int, col: int)
  {
    0 <= row < 6 && row <= col < 10 - row
  }

  /** Level 4: a checkerboard of the cells whose row and column add up to an
      even number. */
  predicate CheckerCell(row: int, col: int)
  {
    0 <= row < 6 && 0 <= col < 10 && (row + col) % 2 == 0
  }

  /** Level 5: the cells the gapped table marks. */
  predicate GapsCell(row: int, col: int)
  {
    0 <= row < 6 && 0 <= col < 10 && Gaps[row][col] != 0
  }

  /** The cell (`row`, `col`) holds a brick in the layout of `level`; no
      cell does for a level without a layout. */
  predicate InLayout(level: int, row: int, col: int)
  {
    if level == 1 then FullCell(row, col)
    else if level == 2 then DiamondCell(row, col)
    else if level == 3 then PyramidCell(row, col)
    else if level == 4 then CheckerCell(row, col)
    else if level == 5 then GapsCell(row, col)
    else false
  }

  /** The grid row and column a brick's position encodes. */
  function CellRow(b: Brick): int
  {
    (b.rect.Top() - 50) / 25
  }

  function CellCol(b: Brick): int
  {
    (b.rect.Left() - 5) / 80
  }

  /** Where the brick of a cell stands, in the wall's own terms: columns
      of 75-pixel bricks 5 pixels apart from x = 5, rows of 20-pixel bricks
      5 pixels apart from y = 50, the colours cycling by row. */
  lemma BrickPlacement(row: nat, col: nat)
    ensures var b := BrickAt(row, col);
            && b.rect.Left() == col * (BrickWidth + BrickPadding) + BrickPadding
            && b.rect.Top() == row * (BrickHeight + BrickPadding) + WallStartY
            && b.rect.w == BrickWidth && b.rect.h == BrickHeight
            && b.color == BrickColors[row % |BrickColors|]
  {
  }

  /** A brick's position reads back as its cell. */
  lemma CellOfBrickAt(row: nat, col: nat)
    ensures CellRow(BrickAt(row, col)) == row && CellCol(BrickAt(row, col)) == col
  {
  }

  /** The bricks of every cell of the first `rows` rows, row by row from the
      top and left to right within a row. */
  function Grid(rows: nat): seq<Brick>
  {
    seq(rows * 10, i requires 0 <= i < rows * 10 => BrickAt(i / 10, i % 10))
  }

  /** The bricks of every cell of row `row`, left to right. */
  function GridRow(row: nat): seq<Brick>
  {
    seq(WallColumns, col requires 0 <= col < WallColumns => BrickAt(row, col))
  }

  /** The bricks of `cells` whose cell the layout keeps, in order. */
  function Laid(level: int, cells: seq<Brick>): seq<Brick>
  {
    if cells == [] then []
    else
      var b := cells[|cells| - 1];
      Laid(level, cells[..|cells| - 1]) + (if InLayout(level, CellRow(b), CellCol(b)) then [b] else [])
  }

  /** The brick wall of `level`, in the order the bricks are laid; only
      levels 1 to 5 have bricks. */
  function Wall(level: int): (w: seq<Brick>)
    ensures level < 1 || level > 5 ==> w == []
  {
    Laid(level, Grid(LayoutRows(level)))
  }

  /** `b` is the brick of a cell of the layout of `level`. */
  predicate InWall(level: int, b: Brick)
  {
    && 0 <= CellRow(b) < LayoutRows(level)
    && 0 <= CellCol(b) < 10
    && InLayout(level, CellRow(b), CellCol(b))
    && b == BrickAt(CellRow(b), CellCol(b))
  }

  lemma {:induction false} LaidMembers(level: int, cells: seq<Brick>, b: Brick)
    ensures b in Laid(level, cells) <==> b in cells && InLayout(level, CellRow(b), CellCol(b))
  {
    if cells != [] {
      var last := cells[|cells| - 1];
      LaidMembers(level, cells[..|cells| - 1], b);
      assert cells == cells[..|cells| - 1] + [last];
    }
  }

  /** The grid holds the brick of each of its cells ... */
  lemma GridHas(rows: nat, row: nat, col: nat)
    requires row < rows && col < WallColumns
    ensures BrickAt(row, col) in Grid(rows)
  {
    CellIndex(row, col);
    assert Grid(rows)[row * 10 + col] == BrickAt(row, col);
  }

  /** ... and nothing else. */
  lemma GridOnly(rows: nat, b: Brick)
    requires b in Grid(rows)
    ensures 0 <= CellRow(b) < rows && 0 <= CellCol(b) < WallColumns && b == BrickAt(CellRow(b), CellCol(b))
  {
    var i :| 0 <= i < |Grid(rows)| && Grid(rows)[i] == b;
    CellOfBrickAt(i / 10, i % 10);
  }

  lemma GridMembers(rows: nat, b: Brick)
    ensures b in Grid(rows)
            <==> 0 <= CellRow(b) < rows && 0 <= CellCol(b) < WallColumns && b == BrickAt(CellRow(b), CellCol(b))
  {
    if 0 <= CellRow(b) < rows && 0 <= CellCol(b) < WallColumns && b == BrickAt(CellRow(b), CellCol(b)) {
      GridHas(rows, CellRow(b), CellCol(b));
    }
    if b in Grid(rows) {
      GridOnly(rows, b);
    }
  }

  /** A brick belongs to the wall of `level` exactly when it is the brick of
      a cell of that level's layout. */
  lemma WallMembers(level: int, b: Brick)
    ensures b in Wall(level) <==> InWall(level, b)
  {
    LaidMembers(level, Grid(LayoutRows(level)), b);
    GridMembers(LayoutRows(level), b);
  }

  /** Every brick of every wall is a 75 by 20 brick at x = 80 col + 5 and
      y = 25 row + 50 for a column from 0 to 9, so it lies fully inside the
      800-pixel-wide screen; its colour is that of its row. */
  lemma WallInBounds(level: int, b: Brick)
    requires b in Wall(level)
    ensures b.rect.w == 75 && b.rect.h == 20
    ensures b.rect.Left() == CellCol(b) * 80 + 5
    ensures b.rect.Top() == CellRow(b) * 25 + 50
    ensures 5 <= b.rect.Left() && b.rect.Right() <= 800
    ensures b.color == BrickColors[CellRow(b) % 4]
  {
    WallMembers(level, b);
  }

  /** The pyramid of level 3 has bricks in its first five rows only: its
      sixth row would start and end at column 5. */
  lemma PyramidSixthRowEmpty(b: Brick)
    requires b in Wall(3)
    ensures CellRow(b) < 5
  {
    WallMembers(3, b);
  }

  lemma LaidAppend(level: int, a: seq<Brick>, b: seq<Brick>)
    ensures Laid(level, a + b) == Laid(level, a) + Laid(level, b)
    decreases |b|
  {
    if b != [] {
      var last := b[|b| - 1];
      LaidAppend(level, a, b[..|b| - 1]);
      assert (a + b)[..|a + b| - 1] == a + b[..|b| - 1];
    } else {
      assert a + b == a;
    }
  }

  lemma GridNextRow(rows: nat)
    ensures Grid(rows + 1) == Grid(rows) + GridRow(rows)
  {
  }

  /** How many cells of a layout lie in the first `col` columns of `row`. */
  function RowCount(level: int, row: nat, col: nat): nat
  {
    if col == 0 then 0
    else RowCount(level, row, col - 1) + (if InLayout(level, row, col - 1) then 1 else 0)
  }

  /** A row of a wall has one brick per cell its layout keeps in that row. */
  lemma {:induction false} RowLength(level: int, row: nat, col: nat)
    requires col <= WallColumns
    ensures |Laid(level, GridRow(row)[..col])| == RowCount(level, row, col)
  {
    if col > 0 {
      RowLength(level, row, col - 1);
      assert GridRow(row)[..col][..col - 1] == GridRow(row)[..col - 1];
      CellOfBrickAt(row, col - 1);
    }
  }

  /** The number of bricks in row `row` of a wall. */
  lemma RowSize(level: int, row: nat)
    ensures |Laid(level, GridRow(row))| == RowCount(level, row, 10)
  {
    RowLength(level, row, 10);
    assert GridRow(row)[..WallColumns] == GridRow(row);
  }

  /** A wall of `rows + 1` rows is a wall of `rows` rows and one more row. */
  lemma NextRowSize(level: int, rows: nat)
    ensures |Laid(level, Grid(rows + 1))| == |Laid(level, Grid(rows))| + |Laid(level, GridRow(rows))|
  {
    GridNextRow(rows);
    LaidAppend(level, Grid(rows), GridRow(rows));
  }

  /** Level 1 fills every cell of its rows. */
  lemma {:induction false} FullRowCount(row: nat, col: nat)
    requires row < 4 && col <= WallColumns
    ensures RowCount(1, row, col) == col
  {
    if col > 0 {
      FullRowCount(row, col - 1);
    }
  }

  /** Row `row` of the level-3 pyramid spans the columns `row` to `9 - row`,
      so its row 5 is empty. */
  lemma {:induction false} PyramidRowCount(row: nat, col: nat)
    requires row < 6 && col <= WallColumns
    ensures RowCount(3, row, col)
            == if col <= row then 0
               else if col <= 10 - row then col - row
               else 10 - 2 * row
  {
    if col > 0 {
      PyramidRowCount(row, col - 1);
    }
  }

  /** The level-4 checkerboard keeps the cells whose row and column add up
      to an even number, so of any two neighbouring cells of a row exactly
      one holds a brick: the first 2 k columns of a row hold k bricks. */
  lemma CheckerNeighbours(row: nat, col: nat)
    requires row < 6 && col + 1 < WallColumns
    ensures CheckerCell(row, col) != CheckerCell(row, col + 1)
  {
  }

  lemma {:induction false} CheckerRowCount(row: nat, k: nat)
    requires row < 6 && k <= 5
    ensures RowCount(4, row, 2 * k) == k
  {
    if k > 0 {
      CheckerRowCount(row, k - 1);
      CheckerNeighbours(row, 2 * k - 2);
    }
  }

  lemma {:induction false} FullWallSize(rows: nat)
    requires rows <= 4
    ensures |Laid(1, Grid(rows))| == 10 * rows
  {
    if rows > 0 {
      FullWallSize(rows - 1);
      NextRowSize(1, rows - 1);
      RowSize(1, rows - 1);
      FullRowCount(rows - 1, 10);
    }
  }

  lemma {:induction false} CheckerWallSize(rows: nat)
    requires rows <= 6
    ensures |Laid(4, Grid(rows))| == 5 * rows
  {
    if rows > 0 {
      CheckerWallSize(rows - 1);
      NextRowSize(4, rows - 1);
      RowSize(4, rows - 1);
      CheckerRowCount(rows - 1, 5);
    }
  }

  /** A wall one row longer: the bricks of the first `rows` rows and those
      of row `rows`. */
  lemma AddRow(level: int, rows: nat, before: nat, row: nat)
    requires |Laid(level, Grid(rows))| == before
    requires |Laid(level, GridRow(rows))| == row
    ensures |Laid(level, Grid(rows + 1))| == before + row
  {
    NextRowSize(level, rows);
  }

  /** Row `row` of the pyramid holds 10 - 2 row bricks. */
  lemma PyramidRowBricks(row: nat)
    requires row < 6
    ensures |Laid(3, GridRow(row))| == 10 - 2 * row
  {
    RowSize(3, row);
    PyramidRowCount(row, 10);
  }

  /** The rows of the level-2 diamond hold 4, 6, 8, 10, 10, 8, 6 and 4
      bricks, and those of level 5 hold 6, 10, 6, 8, 6 and 10 bricks; one
      lemma per row. */
  lemma DiamondRow0()
    ensures |Laid(2, GridRow(0))| == 4
  {
    RowSize(2, 0);
    assert RowCount(2, 0, 5) == 2;
  }

  lemma DiamondRow1()
    ensures |Laid(2, GridRow(1))| == 6
  {
    RowSize(2, 1);
    assert RowCount(2, 1, 5) == 3;
  }

  lemma DiamondRow2()
    ensures |Laid(2, GridRow(2))| == 8
  {
    RowSize(2, 2);
    assert RowCount(2, 2, 5) == 4;
  }

  lemma DiamondRow3()
    ensures |Laid(2, GridRow(3))| == 10
  {
    RowSize(2, 3);
    assert RowCount(2, 3, 5) == 5;
  }

  lemma DiamondRow4()
    ensures |Laid(2, GridRow(4))| == 10
  {
    RowSize(2, 4);
    assert RowCount(2, 4, 5) == 5;
  }

  lemma DiamondRow5()
    ensures |Laid(2, GridRow(5))| == 8
  {
    RowSize(2, 5);
    assert RowCount(2, 5, 5) == 4;
  }

  lemma DiamondRow6()
    ensures |Laid(2, GridRow(6))| == 6
  {
    RowSize(2, 6);
    assert RowCount(2, 6, 5) == 3;
  }

  lemma DiamondRow7()
    ensures |Laid(2, GridRow(7))| == 4
  {
    RowSize(2, 7);
    assert RowCount(2, 7, 5) == 2;
  }

  lemma GapsRow0()
    ensures |Laid(5, GridRow(0))| == 6
  {
    RowSize(5, 0);
    assert RowCount(5, 0, 5) == 3;
  }

  lemma GapsRow1()
    ensures |Laid(5, GridRow(1))| == 10
  {
    RowSize(5, 1);
    assert RowCount(5, 1, 5) == 5;
  }

  lemma GapsRow2()
    ensures |Laid(5, GridRow(2))| == 6
  {
    RowSize(5, 2);
    assert RowCount(5, 2, 5) == 3;
  }

  lemma GapsRow3()
    ensures |Laid(5, GridRow(3))| == 8
  {
    RowSize(5, 3);
    assert RowCount(5, 3, 5) == 4;
  }

  lemma GapsRow4()
    ensures |Laid(5, GridRow(4))| == 6
  {
    RowSize(5, 4);
    assert RowCount(5, 4, 5) == 3;
  }

  lemma GapsRow5()
    ensures |Laid(5, GridRow(5))| == 10
  {
    RowSize(5, 5);
    assert RowCount(5, 5, 5) == 5;
  }

  /** The five walls hold 40, 56, 30, 30 and 46 bricks. */
  lemma WallSizes()
    ensures |Wall(1)| == 40
    ensures |Wall(2)| == 56
    ensures |Wall(3)| == 30
    ensures |Wall(4)| == 30
    ensures |Wall(5)| == 46
  {
    WallSize1();
    WallSize2();
    WallSize3();
    WallSize4();
    WallSize5();
  }

  lemma WallSize1()
    ensures |Wall(1)| == 40
  {
    FullWallSize(4);
  }

  /** A wall two rows longer: the bricks of the first `rows` rows and those
      of the next two rows. */
  lemma AddTwoRows(level: int, rows: nat, before: nat, first: nat, second: nat)
    requires |Laid(level, Grid(rows))| == before
    requires |Laid(level, GridRow(rows))| == first
    requires |Laid(level, GridRow(rows + 1))| == second
    ensures |Laid(level, Grid(rows + 2))| == before + first + second
  {
    AddRow(level, rows, before, first);
    AddRow(level, rows + 1, before + first, second);
  }

  /** The first two rows of the diamond: 4 + 6 bricks. */
  lemma DiamondTopRows()
    ensures |Laid(2, Grid(2))| == 10
  {
    DiamondRow0();
    DiamondRow1();
    AddTwoRows(2, 0, 0, 4, 6);
  }

  /** The top half of the diamond: 10 + 8 + 10 bricks. */
  lemma DiamondTopHalf()
    ensures |Laid(2, Grid(4))| == 28
  {
    DiamondTopRows();
    DiamondRow2();
    DiamondRow3();
    AddTwoRows(2, 2, 10, 8, 10);
  }

  lemma WallSize2()
    ensures |Wall(2)| == 56
  {
    DiamondTopHalf();
    DiamondRow4();
    DiamondRow5();
    AddTwoRows(2, 4, 28, 10, 8);
    DiamondRow6();
    DiamondRow7();
    AddTwoRows(2, 6, 46, 6, 4);
  }

  lemma WallSize3()
    ensures |Wall(3)| == 30
  {
    PyramidRowBricks(0);
    AddRow(3, 0, 0, 10);
    PyramidRowBricks(1);
    AddRow(3, 1, 10, 8);
    PyramidRowBricks(2);
    AddRow(3, 2, 18, 6);
    PyramidRowBricks(3);
    AddRow(3, 3, 24, 4);
    PyramidRowBricks(4);
    AddRow(3, 4, 28, 2);
    PyramidRowBricks(5);
    AddRow(3, 5, 30, 0);
  }

  lemma WallSize4()
    ensures |Wall(4)| == 30
  {
    CheckerWallSize(6);
  }

  /** The first two rows of the gapped wall: 6 + 10 bricks. */
  lemma GapsTopRows()
    ensures |Laid(5, Grid(2))| == 16
  {
    GapsRow0();
    GapsRow1();
    AddTwoRows(5, 0, 0, 6, 10);
  }

  /** The first four rows of the gapped wall: 16 + 6 + 8 bricks. */
  lemma GapsTopHalf()
    ensures |Laid(5, Grid(4))| == 30
  {
    GapsTopRows();
    GapsRow2();
    GapsRow3();
    AddTwoRows(5, 2, 16, 6, 8);
  }

  lemma WallSize5()
    ensures |Wall(5)| == 46
  {
    GapsTopHalf();
    GapsRow4();
    GapsRow5();
    AddTwoRows(5, 4, 30, 6, 10);
  }

  lemma CellIndex(row: nat, col: nat)
    requires col < 10
    ensures (row * 10 + col) / 10 == row && (row * 10 + col) % 10 == col
  {
  }

  /** One cell of the row-by-row walk: the bricks laid before the cell
      (`row`, `col`), followed by that cell's brick when the layout keeps
      it, are the bricks laid before the next cell. */
  lemma LayCell(level: int, rows: nat, row: nat, col: nat)
    requires row < rows && col < WallColumns
    ensures row * 10 + col < |Grid(rows)|
    ensures Laid(level, Grid(rows)[..row * 10 + col + 1])
            == Laid(level, Grid(rows)[..row * 10 + col])
               + (if InLayout(level, row, col) then [BrickAt(row, col)] else [])
  {
    var i := row * 10 + col;
    var g := Grid(rows);
    CellIndex(row, col);
    assert g[i] == BrickAt(row, col);
    CellOfBrickAt(row, col);
    assert g[..i + 1][..i] == g[..i];
  }

  /** `create_brick_wall`: lays the bricks of `level` row by row, left to
      right, keeping the cells of its layout. */
  method CreateBrickWall(level: int) returns (bricks: seq<Brick>)
    ensures bricks == Wall(level)
  {
    var rows := LayoutRows(level);
    bricks := [];
    var row := 0;
    while row < rows
      invariant row <= rows
      invariant bricks == Laid(level, Grid(rows)[..row * 10])
    {
      bricks := LayRow(level, rows, row, bricks);
      row := row + 1;
    }
    assert Grid(rows)[..row * 10] == Grid(rows);
  }

  /** One row of `create_brick_wall`'s inner loop: the row's cells of the
      layout, left to right, after the bricks of the rows above. */
  method LayRow(level: int, rows: nat, row: nat, above: seq<Brick>) returns (bricks: seq<Brick>)
    requires row < rows
    requires above == Laid(level, Grid(rows)[..row * 10])
    ensures bricks == Laid(level, Grid(rows)[..row * 10 + 10])
  {
    bricks := above;
    var col := 0;
    while col < WallColumns
      invariant col <= WallColumns
      invariant bricks == Laid(level, Grid(rows)[..row * 10 + col])
    {
      bricks := LayBrick(level, rows, row, col, bricks);
      col := col + 1;
    }
  }

  /** One pass of the inner loop: the brick of cell (`row`, `col`) is laid
      when the level's layout keeps that cell. */
  method LayBrick(level: int, rows: nat, row: nat, col: nat, before: seq<Brick>) returns (bricks: seq<Brick>)
    requires row < rows && col < WallColumns
    requires before == Laid(level, Grid(rows)[..row * 10 + col])
    ensures bricks == Laid(level, Grid(rows)[..row * 10 + col + 1])
  {
    LayCell(level, rows, row, col);
    bricks := before;
    if InLayout(level, row, col) {
      bricks := bricks + [BrickAt(row, col)];
    }
  }

  /** Every cell of the four-by-ten grid belongs to level 1, so each
      step of the legacy walk appends exactly the brick it builds. */
  lemma LegacyCell(row: nat, col: nat)
    requires row < 4 && col < 10
    ensures row * 10 + col < 40
    ensures Laid(1, Grid(4)[..row * 10 + col + 1])
            == Laid(1, Grid(4)[..row * 10 + col]) + [Brick(Rect(col * 80 + 5, row * 25 + 50, 75, 20), BrickColors[row % 4])]
  {
    LayCell(1, 4, row, col);
  }

  /** `create_brick_wall_legacy`: the original four-by-ten grid, which is
      the wall of level 1. */
  method CreateBrickWallLegacy() returns (bricks: seq<Brick>)
    ensures bricks == Wall(1)
  {
    ghost var grid := Grid(4);
    bricks := [];
    var row := 0;
    while row < 4
      invariant row <= 4
      invariant bricks == Laid(1, grid[..row * 10])
    {
      var col := 0;
      while col < 10
        invariant col <= 10
        invariant bricks == Laid(1, grid[..row * 10 + col])
      {
        var brick := Brick(Rect(col * 80 + 5, row * 25 + 50, 75, 20), BrickColors[row % 4]);
        LegacyCell(row, col);
        bricks := bricks + [brick];
        col := col + 1;
      }
      row := row + 1;
    }
    assert grid[..row * 10] == grid;
  }
}
