/** Day 8: a rectangular grid of tree heights. A tree is visible when it stands on the
    edge of the grid, or when every tree between it and the edge, in one of the four
    directions, is strictly shorter; the answer is the number of visible trees. */
module Day08 {

  /** Tree heights, row by row. */
  type Grid = seq<seq<nat>>

  function Cols(g: Grid): nat { if g == [] then 0 else |g[0]| }

  predicate Rectangular(g: Grid)
  {
    forall i :: 0 <= i < |g| ==> |g[i]| == Cols(g)
  }

  predicate InGrid(g: Grid, i: nat, j: nat)
  {
    Rectangular(g) && i < |g| && j < Cols(g)
  }

  predicate OnPerimeter(g: Grid, i: nat, j: nat)
    requires InGrid(g, i, j)
  {
    i == 0 || i == |g| - 1 || j == 0 || j == Cols(g) - 1
  }

  /** Every tree north of (i, j) is strictly shorter. */
  predicate ClearNorth(g: Grid, i: nat, j: nat)
    requires InGrid(g, i, j)
  {
    forall k :: 0 <= k < i ==> g[k][j] < g[i][j]
  }

  predicate ClearSouth(g: Grid, i: nat, j: nat)
    requires InGrid(g, i, j)
  {
    forall k :: i < k < |g| ==> g[k][j] < g[i][j]
  }

  predicate ClearWest(g: Grid, i: nat, j: nat)
    requires InGrid(g, i, j)
  {
    forall k :: 0 <= k < j ==> g[i][k] < g[i][j]
  }

  predicate ClearEast(g: Grid, i: nat, j: nat)
    requires InGrid(g, i, j)
  {
    forall k :: j < k < Cols(g) ==> g[i][k] < g[i][j]
  }

  predicate Visible(g: Grid, i: nat, j: nat)
    requires InGrid(g, i, j)
  {
    OnPerimeter(g, i, j) || ClearNorth(g, i, j) || ClearSouth(g, i, j) || ClearWest(g, i, j) || ClearEast(g, i, j)
  }

  /** The entry of the visibility table: 1 for a visible tree, 0 otherwise. */
  function Mark(g: Grid, i: nat, j: nat): nat
    requires InGrid(g, i, j)
  {
    if Visible(g, i, j) then 1 else 0
  }

  /** The marks of the first `c` trees of row `i`. */
  function RowCount(g: Grid, i: nat, c: nat): nat
    requires Rectangular(g) && i < |g| && c <= Cols(g)
  {
    if c == 0 then 0 else RowCount(g, i, c - 1) + Mark(g, i, c - 1)
  }

  /** The marks of the first `r` rows. */
  function GridCount(g: Grid, r: nat): nat
    requires Rectangular(g) && r <= |g|
  {
    if r == 0 then 0 else GridCount(g, r - 1) + RowCount(g, r - 1, Cols(g))
  }

  function VisibleCount(g: Grid): nat
    requires Rectangular(g)
  {
    GridCount(g, |g|)
  }

  // ---------------------------------------------------------------- properties

  /** A tree of height 0 inside the grid is hidden in every direction, because the
      source's test is `>=`: any neighbour, however low, blocks the view. */
  lemma ZeroHeightHidden(g: Grid, i: nat, j: nat)
    requires InGrid(g, i, j) && !OnPerimeter(g, i, j)
    requires g[i][j] == 0
    ensures !Visible(g, i, j)
  {
    assert g[0][j] >= g[i][j];
    assert g[|g| - 1][j] >= g[i][j];
    assert g[i][0] >= g[i][j];
    assert g[i][Cols(g) - 1] >= g[i][j];
  }

  /** Every tree on the edge is visible. */
  lemma PerimeterVisible(g: Grid, i: nat, j: nat)
    requires InGrid(g, i, j) && OnPerimeter(g, i, j)
    ensures Mark(g, i, j) == 1
  {
  }

  lemma {:induction false} RowCountAtMost(g: Grid, i: nat, c: nat)
    requires Rectangular(g) && i < |g| && c <= Cols(g)
    ensures RowCount(g, i, c) <= c
  {
    if c > 0 {
      RowCountAtMost(g, i, c - 1);
    }
  }

  /** In the first or last row every tree is visible. */
  lemma {:induction false} EdgeRowCount(g: Grid, i: nat, c: nat)
    requires Rectangular(g) && i < |g| && c <= Cols(g)
    requires i == 0 || i == |g| - 1
    ensures RowCount(g, i, c) == c
  {
    if c > 0 {
      EdgeRowCount(g, i, c - 1);
    }
  }

  /** Any other row holds at least its two end trees. */
  lemma {:induction false} InnerRowCount(g: Grid, i: nat, c: nat)
    requires Rectangular(g) && i < |g| && 2 <= c == Cols(g)
    ensures RowCount(g, i, c) >= 2
  {
    RowCountFirst(g, i, c - 1);
    assert Mark(g, i, c - 1) == 1;
  }

  lemma {:induction false} RowCountFirst(g: Grid, i: nat, c: nat)
    requires Rectangular(g) && i < |g| && 1 <= c <= Cols(g)
    ensures RowCount(g, i, c) >= 1
  {
    if c == 1 {
      assert Mark(g, i, 0) == 1;
    } else {
      RowCountFirst(g, i, c - 1);
    }
  }

  /** The count is at most the number of trees. */
  lemma {:induction false} GridCountAtMost(g: Grid, r: nat)
    requires Rectangular(g) && r <= |g|
    ensures GridCount(g, r) <= r * Cols(g)
  {
    if r > 0 {
      GridCountAtMost(g, r - 1);
      RowCountAtMost(g, r - 1, Cols(g));
      assert (r - 1) * Cols(g) + Cols(g) == r * Cols(g);
    }
  }

  /** The count is at least the number of trees on the perimeter of the first `r` rows. */
  lemma {:induction false} GridCountAtLeast(g: Grid, r: nat)
    requires Rectangular(g) && 1 <= r <= |g| && Cols(g) >= 2
    ensures r < |g| ==> GridCount(g, r) >= Cols(g) + 2 * (r - 1)
    ensures r == |g| && r >= 2 ==> GridCount(g, r) >= 2 * Cols(g) + 2 * (r - 2)
  {
    if r == 1 {
      EdgeRowCount(g, 0, Cols(g));
    } else {
      GridCountAtLeast(g, r - 1);
      if r == |g| {
        EdgeRowCount(g, r - 1, Cols(g));
      } else {
        InnerRowCount(g, r - 1, Cols(g));
      }
    }
  }

  /** The count lies between the number of trees on the perimeter and the number of trees. */
  lemma VisibleCountBounds(g: Grid)
    requires Rectangular(g) && |g| >= 2 && Cols(g) >= 2
    ensures 2 * |g| + 2 * Cols(g) - 4 <= VisibleCount(g) <= |g| * Cols(g)
  {
    GridCountAtMost(g, |g|);
    GridCountAtLeast(g, |g|);
  }

  // ---------------------------------------------------------------- the imperative scan

  /** The heights held by the source's two-dimensional array, as a value. */
  function GridOf(heights: array2<nat>): (g: Grid)
    reads heights
    ensures |g| == heights.Length0 && Rectangular(g)
    ensures heights.Length0 > 0 ==> Cols(g) == heights.Length1
    ensures forall i, j :: 0 <= i < heights.Length0 && 0 <= j < heights.Length1 ==> g[i][j] == heights[i, j]
  {
    seq(heights.Length0, i reads heights requires 0 <= i < heights.Length0 => RowOf(heights, i))
  }

  function RowOf(heights: array2<nat>, i: nat): (row: seq<nat>)
    reads heights
    requires i < heights.Length0
    ensures |row| == heights.Length1
    ensures forall j :: 0 <= j < heights.Length1 ==> row[j] == heights[i, j]
  {
    seq(heights.Length1, j reads heights requires 0 <= j < heights.Length1 => heights[i, j])
  }

  /** The work done for one tree: `mark` plays the role of the tree's entry in the
      visibility table, which the source sets to 1 before every direction and resets to 0
      when a tree at least as tall blocks that direction. */
  method TreeMark(heights: array2<nat>, i: nat, j: nat) returns (mark: nat)
    requires i < heights.Length0 && j < heights.Length1
    ensures mark == Mark(GridOf(heights), i, j)
  {
    ghost var g := GridOf(heights);
    var rows, cols := heights.Length0, heights.Length1;
    if i == 0 || i == rows - 1 || j == 0 || j == cols - 1 {
      return 1;
    }
    var height := heights[i, j];
    // north
    mark := 1;
    for k := 0 to i
      invariant mark == 1 && forall m :: 0 <= m < k ==> g[m][j] < height
    {
      if heights[k, j] >= height {
        mark := 0;
        break;
      }
    }
    if mark == 1 {
      return;
    }
    assert !ClearNorth(g, i, j);
    // south
    mark := 1;
    for k := i + 1 to rows
      invariant mark == 1 && forall m :: i < m < k ==> g[m][j] < height
    {
      if heights[k, j] >= height {
        mark := 0;
        break;
      }
    }
    if mark == 1 {
      return;
    }
    assert !ClearSouth(g, i, j);
    // west
    mark := 1;
    for k := 0 to j
      invariant mark == 1 && forall m :: 0 <= m < k ==> g[i][m] < height
    {
      if heights[i, k] >= height {
        mark := 0;
        break;
      }
    }
    if mark == 1 {
      return;
    }
    assert !ClearWest(g, i, j);
    // east
    mark := 1;
    for k := j + 1 to cols
      invariant mark == 1 && forall m :: j < m < k ==> g[i][m] < height
    {
      if heights[i, k] >= height {
        mark := 0;
        break;
      }
    }
  }

  /** Fills the visibility table in row-major order, then adds up its entries. */
  method Part1(heights: array2<nat>) returns (sum: int)
    ensures sum == VisibleCount(GridOf(heights))
  {
    var visible := FillTable(heights);
    sum := SumTable(visible, GridOf(heights));
  }

  /** The first pass: the entry of every tree of the table. */
  method FillTable(heights: array2<nat>) returns (visible: array2<nat>)
    ensures fresh(visible) && visible.Length0 == heights.Length0 && visible.Length1 == heights.Length1
    ensures forall a, b :: 0 <= a < visible.Length0 && 0 <= b < visible.Length1 ==>
              visible[a, b] == Mark(GridOf(heights), a, b)
  {
    ghost var g := GridOf(heights);
    var rows, cols := heights.Length0, heights.Length1;
    visible := new nat[rows, cols]((i, j) => 0);
    for i := 0 to rows
      invariant forall a, b :: 0 <= a < i && 0 <= b < cols ==> visible[a, b] == Mark(g, a, b)
    {
      for j := 0 to cols
        invariant forall a, b :: 0 <= a < i && 0 <= b < cols ==> visible[a, b] == Mark(g, a, b)
        invariant forall b :: 0 <= b < j ==> visible[i, b] == Mark(g, i, b)
      {
        var mark := TreeMark(heights, i, j);
        visible[i, j] := mark;
      }
    }
  }

  /** The second pass: the entries added up row by row. */
  method SumTable(visible: array2<nat>, ghost g: Grid) returns (sum: int)
    requires Rectangular(g) && |g| == visible.Length0 && (|g| > 0 ==> Cols(g) == visible.Length1)
    requires forall a, b :: 0 <= a < visible.Length0 && 0 <= b < visible.Length1 ==> visible[a, b] == Mark(g, a, b)
    ensures sum == VisibleCount(g)
  {
    var rows, cols := visible.Length0, visible.Length1;
    sum := 0;
    for i := 0 to rows
      invariant sum == GridCount(g, i)
    {
      for j := 0 to cols
        invariant sum == GridCount(g, i) + RowCount(g, i, j)
      {
        sum := sum + visible[i, j];
      }
    }
  }
}
