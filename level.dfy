/**
 * The brick field a level layout produces: one brick per positive cell of
 * the grid, in row-major order.
 */
module Level {
  import opened Entities

  /** A full row of BRICK_COLS cells of durability d. */
  function FullRow(d: int): (r: seq<int>)
    ensures |r| == BRICK_COLS && forall c :: 0 <= c < |r| ==> r[c] == d
  {
    seq(BRICK_COLS, _ => d)
  }

  /** The only level: six full rows of ten cells, durability 3, 2, 2, 1, 1, 1 from the top. */
  const LEVEL_1: seq<seq<int>> := [FullRow(3), FullRow(2), FullRow(2), FullRow(1), FullRow(1), FullRow(1)]

  function ColumnX(col: nat): real { BRICK_LEFT_OFFSET + col as real * (BRICK_WIDTH + BRICK_PADDING) }

  function RowY(row: nat): real { BRICK_TOP_OFFSET + row as real * (BRICK_HEIGHT + BRICK_PADDING) }

  /** The fresh brick of durability d in the given cell. */
  function BrickAt(row: nat, col: nat, d: int): Brick
  {
    Brick(ColumnX(col), RowY(row), BRICK_WIDTH, BRICK_HEIGHT, d, d, true)
  }

  /** The bricks of one row, from the cells `cells` (the row's first |cells| columns). */
  function RowBricks(cells: seq<int>, row: nat): seq<Brick>
  {
    if cells == [] then []
    else
      var col := |cells| - 1;
      RowBricks(cells[..col], row) + (if cells[col] > 0 then [BrickAt(row, col, cells[col])] else [])
  }

  /** The bricks of a whole layout, row after row. */
  function LevelBricks(layout: seq<seq<int>>): seq<Brick>
  {
    if layout == [] then []
    else
      var row := |layout| - 1;
      LevelBricks(layout[..row]) + RowBricks(layout[row], row)
  }

  function CountPositive(cells: seq<int>): nat
  {
    if cells == [] then 0 else CountPositive(cells[..|cells| - 1]) + (if cells[|cells| - 1] > 0 then 1 else 0)
  }

  /** The number of positive cells of a layout. */
  function PositiveCells(layout: seq<seq<int>>): nat
  {
    if layout == [] then 0 else PositiveCells(layout[..|layout| - 1]) + CountPositive(layout[|layout| - 1])
  }

  /** A brick as a level load creates it: alive, undamaged, with positive durability. */
  predicate IsFresh(b: Brick)
  {
    b.alive && b.durability == b.maxDurability && b.durability > 0
  }

  /** The brick comes from a positive cell of the layout. */
  ghost predicate FromCell(layout: seq<seq<int>>, b: Brick)
  {
    exists row, col :: 0 <= row < |layout| && 0 <= col < |layout[row]| && layout[row][col] > 0
                       && b == BrickAt(row, col, layout[row][col])
  }

  /** a comes before b in row-major order. */
  predicate Before(a: Brick, b: Brick)
  {
    a.y < b.y || (a.y == b.y && a.x < b.x)
  }

  lemma {:induction false} RowBricksCount(cells: seq<int>, row: nat)
    ensures |RowBricks(cells, row)| == CountPositive(cells)
  {
    if cells != [] { RowBricksCount(cells[..|cells| - 1], row); }
  }

  /** Exactly one brick per positive cell. */
  lemma {:induction false} LevelBricksCount(layout: seq<seq<int>>)
    ensures |LevelBricks(layout)| == PositiveCells(layout)
  {
    if layout != [] {
      LevelBricksCount(layout[..|layout| - 1]);
      RowBricksCount(layout[|layout| - 1], |layout| - 1);
    }
  }

  lemma {:induction false} RowBricksFresh(cells: seq<int>, row: nat)
    ensures forall i :: 0 <= i < |RowBricks(cells, row)| ==> IsFresh(RowBricks(cells, row)[i])
  {
    if cells != [] { RowBricksFresh(cells[..|cells| - 1], row); }
  }

  /** Every brick of a level is alive and undamaged: durability == maxDurability > 0 (its cell value is stated by LevelBricksSound). */
  lemma {:induction false} LevelBricksFresh(layout: seq<seq<int>>)
    ensures forall i :: 0 <= i < |LevelBricks(layout)| ==> IsFresh(LevelBricks(layout)[i])
  {
    if layout != [] {
      LevelBricksFresh(layout[..|layout| - 1]);
      RowBricksFresh(layout[|layout| - 1], |layout| - 1);
    }
  }

  lemma {:induction false} RowBricksComplete(cells: seq<int>, row: nat, col: nat)
    requires col < |cells| && cells[col] > 0
    ensures BrickAt(row, col, cells[col]) in RowBricks(cells, row)
  {
    var last := |cells| - 1;
    if col < last {
      RowBricksComplete(cells[..last], row, col);
    }
  }

  /** Every positive cell yields its brick. */
  lemma {:induction false} LevelBricksComplete(layout: seq<seq<int>>, row: nat, col: nat)
    requires row < |layout| && col < |layout[row]| && layout[row][col] > 0
    ensures BrickAt(row, col, layout[row][col]) in LevelBricks(layout)
  {
    var last := |layout| - 1;
    if row < last {
      LevelBricksComplete(layout[..last], row, col);
    } else {
      RowBricksComplete(layout[row], row, col);
    }
  }

  lemma {:induction false} RowBricksSound(cells: seq<int>, row: nat, b: Brick)
    requires b in RowBricks(cells, row)
    ensures exists col :: 0 <= col < |cells| && cells[col] > 0 && b == BrickAt(row, col, cells[col])
  {
    var last := |cells| - 1;
    if b in RowBricks(cells[..last], row) {
      RowBricksSound(cells[..last], row, b);
      var col :| 0 <= col < last && cells[..last][col] > 0 && b == BrickAt(row, col, cells[..last][col]);
      assert cells[col] == cells[..last][col];
    } else {
      assert cells[last] > 0 && b == BrickAt(row, last, cells[last]);
    }
  }

  /** Every brick comes from a positive cell, so zero cells create nothing. */
  lemma {:induction false} LevelBricksSound(layout: seq<seq<int>>, b: Brick)
    requires b in LevelBricks(layout)
    ensures FromCell(layout, b)
  {
    var last := |layout| - 1;
    if b in LevelBricks(layout[..last]) {
      LevelBricksSound(layout[..last], b);
      var row, col :| 0 <= row < last && 0 <= col < |layout[..last][row]| && layout[..last][row][col] > 0
                      && b == BrickAt(row, col, layout[..last][row][col]);
      assert layout[..last][row] == layout[row];
    } else {
      RowBricksSound(layout[last], last, b);
      var col :| 0 <= col < |layout[last]| && layout[last][col] > 0 && b == BrickAt(last, col, layout[last][col]);
      assert b == BrickAt(last, col, layout[last][col]);
    }
  }

  ghost predicate RowMajor(bs: seq<Brick>)
  {
    forall i, j :: 0 <= i < j < |bs| ==> Before(bs[i], bs[j])
  }

  lemma {:induction false} RowBricksOrdered(cells: seq<int>, row: nat)
    ensures RowMajor(RowBricks(cells, row))
    ensures forall i :: 0 <= i < |RowBricks(cells, row)| ==>
              RowBricks(cells, row)[i].y == RowY(row) && RowBricks(cells, row)[i].x < ColumnX(|cells|)
  {
    if cells != [] {
      var last := |cells| - 1;
      RowBricksOrdered(cells[..last], row);
      assert ColumnX(last) < ColumnX(|cells|);
    }
  }

  /** Bricks appear in row-major order: by row, then by column. */
  lemma {:induction false} LevelBricksOrdered(layout: seq<seq<int>>)
    ensures RowMajor(LevelBricks(layout))
    ensures forall i :: 0 <= i < |LevelBricks(layout)| ==> LevelBricks(layout)[i].y < RowY(|layout|)
  {
    if layout != [] {
      var last := |layout| - 1;
      var front, row := LevelBricks(layout[..last]), RowBricks(layout[last], last);
      LevelBricksOrdered(layout[..last]);
      RowBricksOrdered(layout[last], last);
      assert RowY(last) < RowY(|layout|);
      var bs := front + row;
      assert LevelBricks(layout) == bs;
      forall i, j | 0 <= i < j < |bs|
        ensures Before(bs[i], bs[j])
      {
        if j < |front| {
          assert bs[i] == front[i] && bs[j] == front[j];
        } else if i < |front| {
          assert bs[i] == front[i] && bs[j] == row[j - |front|];
          assert front[i].y < RowY(last) == row[j - |front|].y;
        } else {
          assert bs[i] == row[i - |front|] && bs[j] == row[j - |front|];
        }
      }
      forall i | 0 <= i < |bs|
        ensures bs[i].y < RowY(|layout|)
      {
        if i < |front| {
          assert bs[i] == front[i];
        } else {
          assert bs[i] == row[i - |front|];
        }
      }
    }
  }
}
