/**
 * Win detection (src/win_condition.rs): a grid is winning when a row, a
 * column or one of the two diagonals holds three equal signs other than '-'.
 * The module also gives the reference definition of the eight lines of the
 * grid that the rest of the model states its properties against.
 */
module WinCondition {
  import opened Boards

  /** The eight lines of the grid. */
  datatype Line = Row(y: nat) | Column(x: nat) | Diagonal | AntiDiagonal

  predicate ValidLine(l: Line) {
    (l.Row? ==> l.y < 3) && (l.Column? ==> l.x < 3)
  }

  /** The three cells of a line, as (x, y) coordinates. */
  function Cells(l: Line): (cs: seq<Coord>)
    requires ValidLine(l)
    ensures |cs| == 3 && forall c | c in cs :: InBounds(c)
  {
    match l
    case Row(y) => [(0, y), (1, y), (2, y)]
    case Column(x) => [(x, 0), (x, 1), (x, 2)]
    case Diagonal => [(0, 0), (1, 1), (2, 2)]
    case AntiDiagonal => [(2, 0), (1, 1), (0, 2)]
  }

  /** Every cell of line l holds sign. */
  predicate Filled(g: Grid, l: Line, sign: char)
    requires ValidLine(l)
  {
    forall c | c in Cells(l) :: At(g, c) == sign
  }

  /** Reference definition: some line of the grid is filled with sign, a real sign. */
  ghost predicate ThreeInARow(g: Grid, sign: char) {
    sign != Empty && exists l :: ValidLine(l) && Filled(g, l, sign)
  }

  /**
   * unique_non_empty_row: the line holds exactly one distinct sign and its
   * first cell is not empty.
   */
  function UniqueNonEmptyRow(row: seq<char>): (r: bool)
    ensures r <==> |row| > 0 && row[0] != Empty && forall i | 0 <= i < |row| :: row[i] == row[0]
  {
    SingleDistinct(row);
    |set c | c in row| == 1 && row[0] != Empty
  }

  /** A sequence has exactly one distinct element iff it is non-empty and constant. */
  lemma SingleDistinct(row: seq<char>)
    ensures |set c | c in row| == 1 <==> |row| > 0 && forall i | 0 <= i < |row| :: row[i] == row[0]
  {
    var distinct := set c | c in row;
    if |row| > 0 && forall i | 0 <= i < |row| :: row[i] == row[0] {
      assert distinct == {row[0]};
    }
    if |distinct| == 1 {
      forall i | 0 <= i < |row|
        ensures row[i] == row[0]
      {
        if row[i] != row[0] {
          TwoDistinct(distinct, row[0], row[i]);
        }
      }
    }
  }

  /** A set holding two different elements has at least two elements. */
  lemma TwoDistinct(d: set<char>, a: char, b: char)
    requires a in d && b in d && a != b
    ensures |d| >= 2
  {
    var rest := d - {a};
    assert b in rest;
    assert d == rest + {a};
  }

  /** is_row_win: some row of the grid is a unique non-empty row. */
  function IsRowWin(grid: Grid): bool {
    exists y | 0 <= y < 3 :: UniqueNonEmptyRow(grid[y])
  }

  /** transpose_board: the same nested loops as transpose_grid in the board module. */
  method TransposeBoard(grid: Grid) returns (transposed: Grid)
    ensures forall i, j | 0 <= i < 3 && 0 <= j < 3 :: transposed[i][j] == grid[j][i]
    ensures transposed == Transposed(grid)
  {
    transposed := New().grid;
    for i := 0 to 3
      invariant forall a, b | 0 <= a < i && 0 <= b < 3 :: transposed[a][b] == grid[b][a]
    {
      for j := 0 to 3
        invariant forall a, b | 0 <= a < i && 0 <= b < 3 :: transposed[a][b] == grid[b][a]
        invariant forall b | 0 <= b < j :: transposed[i][b] == grid[b][i]
      {
        transposed := transposed[i := transposed[i][j := grid[j][i]]];
      }
    }
    assert forall k | 0 <= k < 3 :: transposed[k] == Transposed(grid)[k];
  }

  /** is_column_win: a row win of the transposed grid. */
  function IsColumnWin(grid: Grid): bool {
    IsRowWin(Transposed(grid))
  }

  /** The value is_diagonal_win computes. */
  function DiagonalWin(grid: Grid): bool {
    UniqueNonEmptyRow(DiagonalOf(grid)) || UniqueNonEmptyRow(AntiDiagonalOf(grid))
  }

  /** is_diagonal_win: collects both diagonals in a loop, then tests each. */
  method IsDiagonalWin(grid: Grid) returns (win: bool)
    ensures win <==> ((grid[0][0] != Empty && grid[0][0] == grid[1][1] == grid[2][2]) ||
                      (grid[0][2] != Empty && grid[0][2] == grid[1][1] == grid[2][0]))
    ensures win == DiagonalWin(grid)
  {
    var rightDiagonal: seq<char> := [];
    var leftDiagonal: seq<char> := [];
    for x := 0 to 3
      invariant |rightDiagonal| == x && |leftDiagonal| == x
      invariant forall k | 0 <= k < x :: rightDiagonal[k] == grid[k][k] && leftDiagonal[k] == grid[k][2 - k]
    {
      rightDiagonal := rightDiagonal + [grid[x][x]];
      leftDiagonal := leftDiagonal + [grid[x][2 - x]];
    }
    assert rightDiagonal == DiagonalOf(grid);
    assert leftDiagonal == AntiDiagonalOf(grid);
    win := UniqueNonEmptyRow(rightDiagonal) || UniqueNonEmptyRow(leftDiagonal);
  }

  /** is_winning_grid: a column, a row or a diagonal win. */
  function IsWinningGrid(grid: Grid): bool {
    IsColumnWin(grid) || IsRowWin(grid) || DiagonalWin(grid)
  }

  /** is_row_win holds exactly when some row is filled with one real sign. */
  lemma RowWinIff(grid: Grid)
    ensures IsRowWin(grid) <==> exists y, sign | 0 <= y < 3 && sign != Empty :: Filled(grid, Row(y), sign)
  {
    if IsRowWin(grid) {
      var y :| 0 <= y < 3 && UniqueNonEmptyRow(grid[y]);
      FilledLine(grid, Row(y), grid[y][0]);
    }
    if exists y, sign | 0 <= y < 3 && sign != Empty :: Filled(grid, Row(y), sign) {
      var y, sign :| 0 <= y < 3 && sign != Empty && Filled(grid, Row(y), sign);
      FilledLine(grid, Row(y), sign);
      assert UniqueNonEmptyRow(grid[y]);
    }
  }

  /** is_column_win holds exactly when some column is filled with one real sign. */
  lemma ColumnWinIff(grid: Grid)
    ensures IsColumnWin(grid) <==> exists x, sign | 0 <= x < 3 && sign != Empty :: Filled(grid, Column(x), sign)
  {
    var t := Transposed(grid);
    if IsColumnWin(grid) {
      var x :| 0 <= x < 3 && UniqueNonEmptyRow(t[x]);
      FilledLine(grid, Column(x), grid[0][x]);
    }
    if exists x, sign | 0 <= x < 3 && sign != Empty :: Filled(grid, Column(x), sign) {
      var x, sign :| 0 <= x < 3 && sign != Empty && Filled(grid, Column(x), sign);
      FilledLine(grid, Column(x), sign);
      assert UniqueNonEmptyRow(t[x]);
    }
  }

  /** is_diagonal_win holds exactly when one of the two diagonals is filled with one real sign. */
  lemma DiagonalWinIff(grid: Grid)
    ensures DiagonalWin(grid) <==>
              exists sign | sign != Empty :: Filled(grid, Diagonal, sign) || Filled(grid, AntiDiagonal, sign)
  {
    FilledLine(grid, Diagonal, grid[0][0]);
    FilledLine(grid, AntiDiagonal, grid[0][2]);
    if exists sign | sign != Empty :: Filled(grid, Diagonal, sign) || Filled(grid, AntiDiagonal, sign) {
      var sign :| sign != Empty && (Filled(grid, Diagonal, sign) || Filled(grid, AntiDiagonal, sign));
      FilledLine(grid, Diagonal, sign);
      FilledLine(grid, AntiDiagonal, sign);
    }
  }

  /** The three cells of line l, when they are all sign, make that line win. */
  lemma FilledLine(g: Grid, l: Line, sign: char)
    requires ValidLine(l)
    ensures Filled(g, l, sign) <==>
              At(g, Cells(l)[0]) == sign && At(g, Cells(l)[1]) == sign && At(g, Cells(l)[2]) == sign
  {
    var cs := Cells(l);
    assert cs == [cs[0], cs[1], cs[2]];
  }

  /** Each of the four wins of is_winning_grid fills a line with one real sign. */
  lemma WinningGridFillsLine(grid: Grid)
    requires IsWinningGrid(grid)
    ensures exists sign :: ThreeInARow(grid, sign)
  {
    var t := Transposed(grid);
    if IsRowWin(grid) {
      var y :| 0 <= y < 3 && UniqueNonEmptyRow(grid[y]);
      FilledLine(grid, Row(y), grid[y][0]);
      assert ThreeInARow(grid, grid[y][0]);
    } else if IsColumnWin(grid) {
      var x :| 0 <= x < 3 && UniqueNonEmptyRow(t[x]);
      FilledLine(grid, Column(x), grid[0][x]);
      assert ThreeInARow(grid, grid[0][x]);
    } else if UniqueNonEmptyRow(DiagonalOf(grid)) {
      FilledLine(grid, Diagonal, grid[0][0]);
      assert ThreeInARow(grid, grid[0][0]);
    } else {
      FilledLine(grid, AntiDiagonal, grid[0][2]);
      assert ThreeInARow(grid, grid[0][2]);
    }
  }

  /** A line filled with one real sign is found by one of the four wins of is_winning_grid. */
  lemma FilledLineWins(grid: Grid, l: Line, sign: char)
    requires sign != Empty && ValidLine(l) && Filled(grid, l, sign)
    ensures IsWinningGrid(grid)
  {
    FilledLine(grid, l, sign);
    match l
    case Row(y) =>
      assert UniqueNonEmptyRow(grid[y]);
    case Column(x) =>
      assert UniqueNonEmptyRow(Transposed(grid)[x]);
    case Diagonal =>
      assert UniqueNonEmptyRow(DiagonalOf(grid));
    case AntiDiagonal =>
      assert UniqueNonEmptyRow(AntiDiagonalOf(grid));
  }

  /**
   * is_winning_grid holds exactly when some line, rows and columns and both
   * diagonals, is filled with one real sign.
   */
  lemma WinningGridIff(grid: Grid)
    ensures IsWinningGrid(grid) <==> exists sign :: ThreeInARow(grid, sign)
  {
    if IsWinningGrid(grid) {
      WinningGridFillsLine(grid);
    }
    if exists sign :: ThreeInARow(grid, sign) {
      var sign, l :| sign != Empty && ValidLine(l) && Filled(grid, l, sign);
      FilledLineWins(grid, l, sign);
    }
  }

  /** The empty grid is not winning. */
  lemma EmptyGridNotWinning()
    ensures !IsWinningGrid(New().grid)
  {
    var g := New().grid;
    WinningGridIff(g);
  }

  /** The winning grids of the module's own tests: a full row, the main diagonal, a full column. */
  lemma SourceWinningGrids()
    ensures IsWinningGrid([['O', 'O', 'O'], ['-', '-', '-'], ['-', '-', '-']])
    ensures IsWinningGrid([['O', '-', '-'], ['-', 'O', '-'], ['-', '-', 'O']])
    ensures IsWinningGrid([['O', '-', '-'], ['O', '-', '-'], ['O', '-', '-']])
  {
  }

  /** The grids of the module's own tests whose lines mix 'O' and 'X' are not winning. */
  lemma SourceMixedGrids()
    ensures !IsWinningGrid([['O', 'X', 'X'], ['-', '-', '-'], ['-', '-', '-']])
    ensures !IsWinningGrid([['O', '-', '-'], ['X', '-', '-'], ['O', '-', '-']])
    ensures !IsWinningGrid([['O', '-', '-'], ['-', 'X', '-'], ['-', '-', 'O']])
  {
  }
}
