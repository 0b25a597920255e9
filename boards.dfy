/**
 * The board value type of the game (src/board.rs): a 3x3 grid of sign
 * characters, '-' marking an empty cell. A board is a value: placing a sign
 * yields a new board and leaves the receiver as it was.
 */
module Boards {
  import opened Wrappers

  /** The mark of an empty cell. */
  const Empty: char := '-'

  /** A 3x3 grid of signs, indexed grid[y][x]: row y, column x. */
  type Grid = g: seq<seq<char>> | |g| == 3 && forall y | 0 <= y < 3 :: |g[y]| == 3
    witness [['-', '-', '-'], ['-', '-', '-'], ['-', '-', '-']]

  /** A coordinate (x, y): column x, row y. Rust's usize becomes nat. */
  type Coord = (nat, nat)

  predicate InBounds(c: Coord) {
    c.0 <= 2 && c.1 <= 2
  }

  /** The sign at coordinate c. */
  function At(g: Grid, c: Coord): char
    requires InBounds(c)
  {
    g[c.1][c.0]
  }

  /** The main diagonal grid[x][x], top-left to bottom-right. */
  function DiagonalOf(g: Grid): (d: seq<char>)
    ensures |d| == 3 && forall x | 0 <= x < 3 :: d[x] == g[x][x]
  {
    [g[0][0], g[1][1], g[2][2]]
  }

  /** The anti-diagonal grid[x][2 - x], top-right to bottom-left. */
  function AntiDiagonalOf(g: Grid): (d: seq<char>)
    ensures |d| == 3 && forall x | 0 <= x < 3 :: d[x] == g[x][2 - x]
  {
    [g[0][2], g[1][1], g[2][0]]
  }

  /** The cell at c exists and holds no sign. */
  predicate IsEmptyAt(g: Grid, c: Coord) {
    InBounds(c) && g[c.1][c.0] == Empty
  }

  /** No cell of the grid is empty. */
  predicate NoEmptyCell(g: Grid) {
    forall y, x | 0 <= y < 3 && 0 <= x < 3 :: g[y][x] != Empty
  }

  /** Two grids that agree on every cell are equal. */
  lemma GridsEqual(g: Grid, h: Grid)
    requires forall y, x | 0 <= y < 3 && 0 <= x < 3 :: g[y][x] == h[y][x]
    ensures g == h
  {
    forall y | 0 <= y < 3
      ensures g[y] == h[y]
    {
      assert g[y] == [g[y][0], g[y][1], g[y][2]];
    }
  }

  /** How many cells of a row of three hold sign. */
  function RowOccurrences(row: seq<char>, sign: char): (n: nat)
    requires |row| == 3
    ensures n <= 3
    ensures n == 0 <==> forall x | 0 <= x < 3 :: row[x] != sign
  {
    (if row[0] == sign then 1 else 0) + (if row[1] == sign then 1 else 0) + (if row[2] == sign then 1 else 0)
  }

  /** How many cells of the grid hold sign. */
  function Occurrences(g: Grid, sign: char): (n: nat)
    ensures n <= 9
    ensures n == 0 <==> forall y, x | 0 <= y < 3 && 0 <= x < 3 :: g[y][x] != sign
  {
    RowOccurrences(g[0], sign) + RowOccurrences(g[1], sign) + RowOccurrences(g[2], sign)
  }

  /** When sign occurs at most once, every cell holding it is one and the same cell p. */
  lemma AtMostOnce(g: Grid, sign: char) returns (p: Coord)
    requires Occurrences(g, sign) <= 1
    ensures InBounds(p)
    ensures forall c | InBounds(c) && At(g, c) == sign :: c == p
  {
    if c :| InBounds(c) && At(g, c) == sign {
      p := c;
    } else {
      p := (0, 0);
    }
  }

  /** Setting an empty cell to mark adds one occurrence of mark and removes one empty cell. */
  lemma OccurrencesAfterPlace(g: Grid, c: Coord, mark: char, sign: char)
    requires IsEmptyAt(g, c)
    ensures Occurrences(Place(g, c, mark), sign) ==
              Occurrences(g, sign) + (if mark == sign then 1 else 0) - (if sign == Empty then 1 else 0)
  {
    var h := Place(g, c, mark);
    var row := g[c.1];
    assert h[c.1] == row[c.0 := mark];
    assert RowOccurrences(h[c.1], sign) ==
             RowOccurrences(row, sign) + (if mark == sign then 1 else 0) - (if sign == Empty then 1 else 0);
    assert forall y | 0 <= y < 3 && y != c.1 :: h[y] == g[y];
  }

  datatype Board = Board(grid: Grid)

  /** The two ways add_value refuses a placement. */
  datatype BoardError = OutOfBounds | AlreadyTaken {
    function Message(): string {
      match this
      case OutOfBounds => "The field is out of bounds"
      case AlreadyTaken => "The field is already taken"
    }
  }

  /** The grid with cell c set to sign and every other cell as it was. */
  function Place(g: Grid, c: Coord, sign: char): (h: Grid)
    requires InBounds(c)
  {
    g[c.1 := g[c.1][c.0 := sign]]
  }

  /** Place writes sign into cell c and leaves the other eight cells as they were. */
  lemma PlaceSetsOneCell(g: Grid, c: Coord, sign: char)
    requires InBounds(c)
    ensures At(Place(g, c, sign), c) == sign
    ensures forall d | InBounds(d) && d != c :: At(Place(g, c, sign), d) == At(g, d)
  {
  }

  /** The two error texts of add_value tell the two errors apart. */
  lemma ErrorMessagesDistinct(e1: BoardError, e2: BoardError)
    ensures e1.Message() == e2.Message() <==> e1 == e2
  {
    assert "The field is out of bounds"[14] != "The field is already taken"[14];
  }

  /** Board::new: a board whose nine cells are all empty. */
  function New(): (b: Board)
    ensures forall y, x | 0 <= y < 3 && 0 <= x < 3 :: b.grid[y][x] == Empty
  {
    Board([[Empty, Empty, Empty], [Empty, Empty, Empty], [Empty, Empty, Empty]])
  }

  /** The transpose of a grid, cell by cell. */
  function Transposed(g: Grid): (t: Grid)
    ensures forall i, j | 0 <= i < 3 && 0 <= j < 3 :: t[i][j] == g[j][i]
  {
    [[g[0][0], g[1][0], g[2][0]],
     [g[0][1], g[1][1], g[2][1]],
     [g[0][2], g[1][2], g[2][2]]]
  }

  /** Board::transpose swaps rows and columns; doing it twice gives the board back. */
  function Transpose(b: Board): (t: Board)
    ensures forall i, j | 0 <= i < 3 && 0 <= j < 3 :: t.grid[i][j] == b.grid[j][i]
  {
    Board(Transposed(b.grid))
  }

  /** Transposing twice gives back the original board. */
  lemma TransposeTwice(b: Board)
    ensures Transpose(Transpose(b)) == b
  {
    var g := Transpose(Transpose(b)).grid;
    forall y | 0 <= y < 3
      ensures g[y] == b.grid[y]
    {
      assert g[y][0] == b.grid[y][0] && g[y][1] == b.grid[y][1] && g[y][2] == b.grid[y][2];
    }
  }

  /**
   * transpose_grid: fills a fresh grid, row i and column j at a time, with
   * the cell (j, i) of the input.
   */
  method TransposeGrid(grid: Grid) returns (transposed: Grid)
    ensures forall i, j | 0 <= i < 3 && 0 <= j < 3 :: transposed[i][j] == grid[j][i]
    ensures transposed == Transposed(grid)
  {
    transposed := New().grid;
    for i := 0 to 3
      invariant forall a, b | 0 <= a < i && 0 <= b < 3 :: transposed[a][b] == grid[b][a]
    {
      for j := 0 to 3
        invariant forall a, b | 0 <= a < i && 0 <= b < 3 :: transposed[a][b] == grid[b][a]
        invariant forall b | 0 <= b < j :: transposed[i][b] == grid[b][i]
      {
        transposed := transposed[i := transposed[i][j := grid[j][i]]];
      }
    }
    assert forall k | 0 <= k < 3 :: transposed[k] == Transposed(grid)[k];
  }

  /**
   * Board::add_value: refuses a coordinate outside the grid first, then an
   * occupied cell; otherwise a copy of the board with the one cell set to
   * sign, whatever character sign is.
   */
  function AddValue(b: Board, c: Coord, sign: char): (r: Result<Board, BoardError>)
    ensures (c.0 > 2 || c.1 > 2) ==> r == Err(OutOfBounds)
    ensures InBounds(c) && b.grid[c.1][c.0] != Empty ==> r == Err(AlreadyTaken)
    ensures r.Ok? <==> IsEmptyAt(b.grid, c)
    ensures r.Ok? ==> r.value.grid[c.1][c.0] == sign
    ensures r.Ok? ==> forall y, x | 0 <= y < 3 && 0 <= x < 3 && (x, y) != c ::
                        r.value.grid[y][x] == b.grid[y][x]
  {
    if c.0 > 2 || c.1 > 2 then
      Err(OutOfBounds)
    else if b.grid[c.1][c.0] != Empty then
      Err(AlreadyTaken)
    else
      Ok(Board(Place(b.grid, c, sign)))
  }

  /** A successful add_value is exactly Place on the grid. */
  lemma AddValueIsPlace(b: Board, c: Coord, sign: char)
    requires IsEmptyAt(b.grid, c)
    ensures AddValue(b, c, sign) == Ok(Board(Place(b.grid, c, sign)))
  {
  }
}
