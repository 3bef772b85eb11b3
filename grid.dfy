/**
  The grid of cells and its neighbour links: the cell record the reader fills
  and initializeWatershed (pointcloud.c:300-357), which zeroes the water and
  links every cell to its row-major neighbours.
 */
module Grid {
  import opened Wrappers
  import opened Util
  import opened Statistics

  /**
    A cell of the point cloud: coordinates, water depth wd and four neighbour
    links. A link is the index of the neighbour in the same list, or None
    where the source holds NULL.
   */
  datatype Cell = Cell(
    x: real, y: real, z: real, wd: real,
    north: Option<nat>, south: Option<nat>, east: Option<nat>, west: Option<nat>)

  /** The cell the reader appends for a sample: dry and unlinked. */
  function CellOf(t: Triple): Cell
  {
    Cell(t.x, t.y, t.z, 0.0, None, None, None, None)
  }

  function CellsOf(ts: seq<Triple>): (r: seq<Cell>)
    ensures |r| == |ts| && forall i :: 0 <= i < |ts| ==> r[i] == CellOf(ts[i])
  {
    seq(|ts|, i requires 0 <= i < |ts| => CellOf(ts[i]))
  }

  /** Reading one more sample appends its cell. */
  lemma CellsOfPrefix(ts: seq<Triple>, n: int)
    requires 0 <= n < |ts|
    ensures CellsOf(ts[..n + 1]) == CellsOf(ts[..n]) + [CellOf(ts[n])]
  {
    var a, b := CellsOf(ts[..n + 1]), CellsOf(ts[..n]) + [CellOf(ts[n])];
    assert |a| == |b|;
    forall k | 0 <= k < |a|
      ensures a[k] == b[k]
    {
      assert ts[..n + 1][k] == ts[k];
    }
  }

  /** listGet of index j in a list of n cells, seen as a link. */
  function ListLink(j: int, n: int): Option<nat>
  {
    if 0 <= j < n then Some(j) else None
  }

  predicate LinkOk(link: Option<nat>, n: int)
  {
    link.Some? ==> link.value < n
  }

  /** Every link of every cell refers to a stored cell. */
  predicate LinksInRange(cells: seq<Cell>)
  {
    forall i :: 0 <= i < |cells| ==>
      LinkOk(cells[i].north, |cells|) && LinkOk(cells[i].south, |cells|) &&
      LinkOk(cells[i].east, |cells|) && LinkOk(cells[i].west, |cells|)
  }

  /** Two grids whose cells have the same coordinates, index by index. */
  predicate SamePositions(a: seq<Cell>, b: seq<Cell>)
  {
    |a| == |b| &&
    forall i :: 0 <= i < |a| ==> a[i].x == b[i].x && a[i].y == b[i].y && a[i].z == b[i].z
  }

  /** The statistics bound the coordinates of every cell. */
  predicate Covers(st: Stats, cells: seq<Cell>)
  {
    forall i :: 0 <= i < |cells| ==>
      st.minX <= cells[i].x <= st.maxX && st.minY <= cells[i].y <= st.maxY &&
      st.minHeight <= cells[i].z <= st.maxHeight
  }

  /** What initializeWatershed writes into the cell at (row, col) of a list of n cells. */
  function LinkedCell(c: Cell, row: int, col: int, rows: int, cols: int, n: int): Cell
  {
    c.(wd := 0.0,
       north := if row > 0 then ListLink(Access2D(row - 1, col, cols), n) else None,
       south := if row < rows - 1 then ListLink(Access2D(row + 1, col, cols), n) else None,
       east := if col < cols - 1 then ListLink(Access2D(row, col + 1, cols), n) else None,
       west := if col > 0 then ListLink(Access2D(row, col - 1, cols), n) else None)
  }

  /** Whether the row/col loops of initializeWatershed reach list index i. */
  predicate Visited(i: int, rows: int, cols: int)
  {
    cols > 0 && 0 <= i < rows * cols
  }

  /** The cells after initializeWatershed: visited cells linked, the others untouched. */
  function InitCells(cells: seq<Cell>, rows: int, cols: int): (r: seq<Cell>)
    ensures |r| == |cells|
  {
    seq(|cells|, i requires 0 <= i < |cells| =>
      if Visited(i, rows, cols) then LinkedCell(cells[i], i / cols, i % cols, rows, cols, |cells|)
      else cells[i])
  }

  /** Number of present links of a cell. */
  function LinkCount(c: Cell): (k: nat)
    ensures k <= 4
  {
    (if c.north.Some? then 1 else 0) + (if c.south.Some? then 1 else 0) +
    (if c.east.Some? then 1 else 0) + (if c.west.Some? then 1 else 0)
  }

  /**
    On a full rows x cols grid, cell i = row * cols + col is dry and linked to
    i - cols iff row > 0, to i + cols iff row < rows - 1, to i + 1 iff
    col < cols - 1 and to i - 1 iff col > 0; its coordinates are kept.
   */
  lemma InitLinks(cells: seq<Cell>, rows: int, cols: int, i: int)
    requires rows > 0 && cols > 0 && |cells| == rows * cols && 0 <= i < |cells|
    ensures var r, row, col := InitCells(cells, rows, cols)[i], i / cols, i % cols;
      && r.x == cells[i].x && r.y == cells[i].y && r.z == cells[i].z && r.wd == 0.0
      && r.north == (if row > 0 then Some(i - cols) else None)
      && r.south == (if row < rows - 1 then Some(i + cols) else None)
      && r.east == (if col < cols - 1 then Some(i + 1) else None)
      && r.west == (if col > 0 then Some(i - 1) else None)
  {
    var row, col := i / cols, i % cols;
    RowOfIndex(i, rows, cols);
    assert Visited(i, rows, cols);
    assert InitCells(cells, rows, cols)[i] == LinkedCell(cells[i], row, col, rows, cols, |cells|);
    assert (row - 1) * cols == row * cols - cols;
    assert (row + 1) * cols == row * cols + cols;
    if row > 0 {
      Access2DBounds(row - 1, col, rows, cols);
    }
    if row < rows - 1 {
      Access2DBounds(row + 1, col, rows, cols);
    }
    if col > 0 {
      Access2DBounds(row, col - 1, rows, cols);
    }
    if col < cols - 1 {
      Access2DBounds(row, col + 1, rows, cols);
    }
  }

  /**
    Link count by position: four, less one for each border of the grid the
    cell lies on (corners of a grid with at least two rows and columns have 2,
    other border cells 3, interior cells 4).
   */
  lemma InitLinkCount(cells: seq<Cell>, rows: int, cols: int, i: int)
    requires rows > 0 && cols > 0 && |cells| == rows * cols && 0 <= i < |cells|
    ensures var row, col := i / cols, i % cols;
      LinkCount(InitCells(cells, rows, cols)[i]) ==
        4 - (if row == 0 then 1 else 0) - (if row == rows - 1 then 1 else 0)
          - (if col == 0 then 1 else 0) - (if col == cols - 1 then 1 else 0)
  {
    var row, col := i / cols, i % cols;
    RowOfIndex(i, rows, cols);
    InitLinks(cells, rows, cols, i);
    var r := InitCells(cells, rows, cols)[i];
    assert r.north.Some? == (row != 0);
    assert r.south.Some? == (row != rows - 1);
    assert r.east.Some? == (col != cols - 1);
    assert r.west.Some? == (col != 0);
  }

  /** North and south links are mutual: i links north to j iff j links south to i. */
  lemma InitNorthSouthMutual(cells: seq<Cell>, rows: int, cols: int, i: int, j: int)
    requires rows > 0 && cols > 0 && |cells| == rows * cols
    requires 0 <= i < |cells| && 0 <= j < |cells|
    ensures var r := InitCells(cells, rows, cols);
      r[i].north == Some(j) <==> r[j].south == Some(i)
  {
    InitLinks(cells, rows, cols, i);
    InitLinks(cells, rows, cols, j);
    RowOfIndex(i, rows, cols);
    RowOfIndex(j, rows, cols);
    if j == i - cols {
      assert j == Access2D(i / cols - 1, i % cols, cols);
      Access2DInverse(i / cols - 1, i % cols, cols);
    }
  }

  /** East and west links are mutual: i links east to j iff j links west to i. */
  lemma InitEastWestMutual(cells: seq<Cell>, rows: int, cols: int, i: int, j: int)
    requires rows > 0 && cols > 0 && |cells| == rows * cols
    requires 0 <= i < |cells| && 0 <= j < |cells|
    ensures var r := InitCells(cells, rows, cols);
      r[i].east == Some(j) <==> r[j].west == Some(i)
  {
    InitLinks(cells, rows, cols, i);
    InitLinks(cells, rows, cols, j);
    RowOfIndex(i, rows, cols);
    RowOfIndex(j, rows, cols);
    if j == i + 1 {
      if i % cols < cols - 1 {
        assert j == Access2D(i / cols, i % cols + 1, cols);
        Access2DInverse(i / cols, i % cols + 1, cols);
      } else {
        assert j == Access2D(i / cols + 1, 0, cols);
        Access2DInverse(i / cols + 1, 0, cols);
      }
    }
  }

  /** The loop body at (row, col): the cell at Access2D(row, col) becomes its linked form. */
  lemma InitCellAt(cells: seq<Cell>, rows: int, cols: int, row: int, col: int)
    requires 0 <= row < rows && 0 <= col < cols && Access2D(row, col, cols) < |cells|
    ensures 0 <= Access2D(row, col, cols)
    ensures InitCells(cells, rows, cols)[Access2D(row, col, cols)] ==
      LinkedCell(cells[Access2D(row, col, cols)], row, col, rows, cols, |cells|)
  {
    Access2DInverse(row, col, cols);
    Access2DBounds(row, col, rows, cols);
  }

  /** Running initializeWatershed again changes nothing. */
  lemma InitIdempotent(cells: seq<Cell>, rows: int, cols: int)
    ensures InitCells(InitCells(cells, rows, cols), rows, cols) == InitCells(cells, rows, cols)
  {
  }

  /** Initialisation keeps every coordinate and keeps links inside the list. */
  lemma InitKeepsShape(cells: seq<Cell>, rows: int, cols: int)
    requires LinksInRange(cells)
    ensures SamePositions(cells, InitCells(cells, rows, cols))
    ensures LinksInRange(InitCells(cells, rows, cols))
  {
  }

  /** Coordinates bounded by the statistics stay bounded when only other fields change. */
  lemma CoversSamePositions(st: Stats, a: seq<Cell>, b: seq<Cell>)
    requires Covers(st, a) && SamePositions(a, b)
    ensures Covers(st, b)
  {
  }

  /**
    The watershed test on a 3 x 3 grid: the centre (cell 4) has all four
    links, the top-left corner only south and east, the bottom-right corner
    only north and west, and every cell is dry.
   */
  lemma ThreeByThreeLinks(cells: seq<Cell>)
    requires |cells| == 9
    ensures var r := InitCells(cells, 3, 3);
      && r[4].north == Some(1) && r[4].south == Some(7) && r[4].east == Some(5) && r[4].west == Some(3)
      && r[0].north == None && r[0].south == Some(3) && r[0].east == Some(1) && r[0].west == None
      && r[8].north == Some(5) && r[8].south == None && r[8].east == None && r[8].west == Some(7)
      && forall i :: 0 <= i < 9 ==> r[i].wd == 0.0
  {
    InitLinks(cells, 3, 3, 0);
    InitLinks(cells, 3, 3, 4);
    InitLinks(cells, 3, 3, 8);
  }
}
