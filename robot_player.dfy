/**
 * The robot's move selection (src/robot_player.rs). It tries eight rules in a
 * fixed order and plays the first cell one of them proposes: win, block,
 * fork, block the opponent's fork, block a fork opportunity, centre, corner,
 * side. Every scan has a fixed order: empty squares row by row (y outer, x
 * inner), lines rows first, then columns, then the two diagonals.
 */
module RobotPlayer {
  import opened Wrappers
  import opened Boards
  import opened WinCondition

  /** The opponent of a sign: 'O' for 'X', and 'X' for every other sign. */
  function Opponent(sign: char): (o: char)
    ensures o != sign && o != Empty
  {
    if sign == 'X' then 'O' else 'X'
  }

  // ---------------------------------------------------------------------------
  // Empty squares in row-major order
  // ---------------------------------------------------------------------------

  /** The position of a cell in row-major order. */
  function RowMajor(c: Coord): nat {
    3 * c.1 + c.0
  }

  /** The coordinates of s come in strictly increasing row-major order. */
  predicate Increasing(s: seq<Coord>) {
    forall i, j | 0 <= i < j < |s| :: RowMajor(s[i]) < RowMajor(s[j])
  }

  lemma IncreasingConcat(a: seq<Coord>, b: seq<Coord>)
    requires Increasing(a) && Increasing(b)
    requires forall c, d | c in a && d in b :: RowMajor(c) < RowMajor(d)
    ensures Increasing(a + b)
  {
    forall i, j | 0 <= i < j < |a + b|
      ensures RowMajor((a + b)[i]) < RowMajor((a + b)[j])
    {
      if j < |a| {
      } else if i >= |a| {
        assert (a + b)[i] == b[i - |a|] && (a + b)[j] == b[j - |a|];
      } else {
        assert (a + b)[i] in a && (a + b)[j] in b;
      }
    }
  }

  /** The empty cells (x', y) of row y with x' < x, left to right. */
  function EmptyInRow(g: Grid, y: nat, x: nat): (s: seq<Coord>)
    requires y < 3 && x <= 3
    ensures forall c :: c in s <==> c.1 == y && c.0 < x && g[y][c.0] == Empty
    ensures Increasing(s)
  {
    if x == 0 then []
    else
      var before := EmptyInRow(g, y, x - 1);
      var here := if g[y][x - 1] == Empty then [(x - 1, y)] else [];
      IncreasingConcat(before, here);
      before + here
  }

  /** The empty cells of the rows above row y, in row-major order. */
  function EmptyInRows(g: Grid, y: nat): (s: seq<Coord>)
    requires y <= 3
    ensures forall c :: c in s <==> c.1 < y && c.0 < 3 && g[c.1][c.0] == Empty
    ensures Increasing(s)
  {
    if y == 0 then []
    else
      var above := EmptyInRows(g, y - 1);
      var row := EmptyInRow(g, y - 1, 3);
      IncreasingConcat(above, row);
      above + row
  }

  /** The value get_empty_squares computes: every empty cell, in row-major order. */
  function EmptySquares(g: Grid): (s: seq<Coord>)
    ensures forall c :: c in s <==> IsEmptyAt(g, c)
    ensures Increasing(s)
  {
    EmptyInRows(g, 3)
  }

  /** get_empty_squares: pushes every empty cell, rows outside, columns inside. */
  method GetEmptySquares(board: Board) returns (squares: seq<Coord>)
    ensures squares == EmptySquares(board.grid)
    ensures forall c :: c in squares <==> IsEmptyAt(board.grid, c)
  {
    squares := [];
    for y := 0 to 3
      invariant squares == EmptyInRows(board.grid, y)
    {
      for x := 0 to 3
        invariant squares == EmptyInRows(board.grid, y) + EmptyInRow(board.grid, y, x)
      {
        if board.grid[y][x] == Empty {
          squares := squares + [(x, y)];
        }
      }
    }
  }

  // ---------------------------------------------------------------------------
  // First element of a sequence among a set of targets
  // ---------------------------------------------------------------------------

  /** The first coordinate of s that is one of targets. */
  function FirstIn(s: seq<Coord>, targets: set<Coord>): (r: Option<Coord>)
    ensures r.Some? ==> r.value in s && r.value in targets
    ensures r.None? ==> forall c | c in s :: c !in targets
  {
    if s == [] then None
    else if s[0] in targets then Some(s[0])
    else FirstIn(s[1..], targets)
  }

  /** One step of a scan for the first target: the element at i, or the first target after it. */
  lemma FirstInStep(s: seq<Coord>, i: nat, targets: set<Coord>)
    requires i < |s|
    ensures FirstIn(s[i..], targets) == if s[i] in targets then Some(s[i]) else FirstIn(s[i + 1..], targets)
  {
    assert s[i..][1..] == s[i + 1..];
  }

  /** In a row-major ordered sequence the first target is the least one in row-major order. */
  lemma {:induction false} FirstInIsLeast(s: seq<Coord>, targets: set<Coord>)
    requires Increasing(s)
    ensures FirstIn(s, targets).Some? ==>
              forall c | c in s && c in targets :: RowMajor(FirstIn(s, targets).value) <= RowMajor(c)
  {
    if s != [] && s[0] !in targets {
      assert Increasing(s[1..]);
      FirstInIsLeast(s[1..], targets);
      forall c | c in s && c in targets
        ensures c in s[1..]
      {
      }
    }
  }

  // ---------------------------------------------------------------------------
  // Centre, corner and side
  // ---------------------------------------------------------------------------

  const Corners: set<Coord> := {(0, 0), (0, 2), (2, 0), (2, 2)}

  const Sides: set<Coord> := {(1, 0), (0, 1), (2, 1), (1, 2)}

  /** take_center_move: the centre when it is empty. */
  function TakeCenterMove(board: Board): (r: Option<Coord>)
    ensures r.Some? <==> IsEmptyAt(board.grid, (1, 1))
    ensures r.Some? ==> r.value == (1, 1)
  {
    if board.grid[1][1] == Empty then Some((1, 1)) else None
  }

  /** The value take_corner_move computes: the first empty corner in row-major order. */
  function FirstEmptyCorner(g: Grid): (r: Option<Coord>)
    ensures r.Some? ==> r.value in Corners && IsEmptyAt(g, r.value)
    ensures r.None? ==> forall c | c in Corners :: !IsEmptyAt(g, c)
  {
    FirstIn(EmptySquares(g), Corners)
  }

  /** The value take_side_move computes: the first empty side cell in row-major order. */
  function FirstEmptySide(g: Grid): (r: Option<Coord>)
    ensures r.Some? ==> r.value in Sides && IsEmptyAt(g, r.value)
    ensures r.None? ==> forall c | c in Sides :: !IsEmptyAt(g, c)
  {
    FirstIn(EmptySquares(g), Sides)
  }

  /** Corner preference is row-major: (0, 0), (2, 0), (0, 2), (2, 2). */
  lemma CornerPreference(g: Grid)
    ensures FirstEmptyCorner(g) ==
              if g[0][0] == Empty then Some((0, 0))
              else if g[0][2] == Empty then Some((2, 0))
              else if g[2][0] == Empty then Some((0, 2))
              else if g[2][2] == Empty then Some((2, 2))
              else None
  {
    var s := EmptySquares(g);
    FirstInIsLeast(s, Corners);
    if g[0][0] == Empty {
      assert (0, 0) in s;
    } else if g[0][2] == Empty {
      assert (2, 0) in s;
    } else if g[2][0] == Empty {
      assert (0, 2) in s;
    } else if g[2][2] == Empty {
      assert (2, 2) in s;
    }
  }

  /** Side preference is row-major: (1, 0), (0, 1), (2, 1), (1, 2). */
  lemma SidePreference(g: Grid)
    ensures FirstEmptySide(g) ==
              if g[0][1] == Empty then Some((1, 0))
              else if g[1][0] == Empty then Some((0, 1))
              else if g[1][2] == Empty then Some((2, 1))
              else if g[2][1] == Empty then Some((1, 2))
              else None
  {
    var s := EmptySquares(g);
    FirstInIsLeast(s, Sides);
    if g[0][1] == Empty {
      assert (1, 0) in s;
    } else if g[1][0] == Empty {
      assert (0, 1) in s;
    } else if g[1][2] == Empty {
      assert (2, 1) in s;
    } else if g[2][1] == Empty {
      assert (1, 2) in s;
    }
  }

  /** take_corner_move: scans the empty squares and returns the first corner. */
  method TakeCornerMove(board: Board) returns (r: Option<Coord>)
    ensures r == FirstEmptyCorner(board.grid)
  {
    var emptySquares := GetEmptySquares(board);
    for i := 0 to |emptySquares|
      invariant FirstIn(emptySquares[i..], Corners) == FirstIn(emptySquares, Corners)
    {
      var square := emptySquares[i];
      assert emptySquares[i..][1..] == emptySquares[i + 1..];
      if square == (0, 0) || square == (0, 2) || square == (2, 0) || square == (2, 2) {
        return Some(square);
      }
    }
    return None;
  }

  /** take_side_move: scans the empty squares and returns the first side cell. */
  method TakeSideMove(board: Board) returns (r: Option<Coord>)
    ensures r == FirstEmptySide(board.grid)
  {
    var emptySquares := GetEmptySquares(board);
    for i := 0 to |emptySquares|
      invariant FirstIn(emptySquares[i..], Sides) == FirstIn(emptySquares, Sides)
    {
      var square := emptySquares[i];
      assert emptySquares[i..][1..] == emptySquares[i + 1..];
      if square == (1, 0) || square == (0, 1) || square == (2, 1) || square == (1, 2) {
        return Some(square);
      }
    }
    return None;
  }

  // ---------------------------------------------------------------------------
  // Winning lines: a line holding sign twice and one empty cell
  // ---------------------------------------------------------------------------

  /** Cell c of line l is empty and the other two cells of l hold sign: sign at c fills l. */
  predicate Threat(g: Grid, l: Line, sign: char, c: Coord)
    requires ValidLine(l)
  {
    c in Cells(l) && At(g, c) == Empty && forall d | d in Cells(l) && d != c :: At(g, d) == sign
  }

  /** Playing sign at c fills some line with sign. */
  ghost predicate CompletesLine(g: Grid, sign: char, c: Coord) {
    exists l :: ValidLine(l) && Threat(g, l, sign, c)
  }

  /** The signs of line l, in the order of its cells. */
  function LineValues(g: Grid, l: Line): (v: seq<char>)
    requires ValidLine(l)
    ensures |v| == 3 && forall k | 0 <= k < 3 :: v[k] == At(g, Cells(l)[k])
  {
    [At(g, Cells(l)[0]), At(g, Cells(l)[1]), At(g, Cells(l)[2])]
  }

  /** filter(|v| *v == sign).count(): how many cells of the line hold sign. */
  function Count(line: seq<char>, sign: char): nat {
    if line == [] then 0 else (if line[0] == sign then 1 else 0) + Count(line[1..], sign)
  }

  /** position(|s| *s == '-'): the index of the first empty cell of the line. */
  function FirstEmpty(line: seq<char>): (r: Option<nat>)
    ensures r.Some? ==> r.value < |line| && line[r.value] == Empty
    ensures r.Some? ==> forall i | 0 <= i < r.value :: line[i] != Empty
    ensures r.None? ==> Empty !in line
  {
    if line == [] then None
    else if line[0] == Empty then Some(0)
    else match FirstEmpty(line[1..])
      case Some(i) => Some(i + 1)
      case None => None
  }

  /**
   * The test each get_winning_*_coordinate applies to a line: the index of
   * its first empty cell, when sign occurs in it exactly twice.
   */
  function CompletingIndex(line: seq<char>, sign: char): (r: Option<nat>)
    ensures r.Some? ==> r.value < |line| && line[r.value] == Empty
  {
    var emptyValue := FirstEmpty(line);
    if emptyValue.Some? && Count(line, sign) == 2 then emptyValue else None
  }

  /** On a line of three cells, Count is the number of those cells that hold sign. */
  lemma Count3(line: seq<char>, sign: char)
    requires |line| == 3
    ensures Count(line, sign) ==
              (if line[0] == sign then 1 else 0) + (if line[1] == sign then 1 else 0) +
              (if line[2] == sign then 1 else 0)
  {
    var rest1, rest2 := line[1..], line[2..];
    assert rest1[0] == line[1] && rest1[1..] == rest2;
    assert rest2[0] == line[2] && rest2[1..] == [];
    assert Count(rest2, sign) == (if line[2] == sign then 1 else 0) + Count([], sign);
    assert Count(rest1, sign) == (if line[1] == sign then 1 else 0) + Count(rest2, sign);
  }

  /** For a real sign, the test finds index k exactly when k is empty and the other two cells hold sign. */
  lemma CompletingIndexIff(line: seq<char>, sign: char, k: nat)
    requires |line| == 3 && sign != Empty && k < 3
    ensures CompletingIndex(line, sign) == Some(k) <==>
              line[k] == Empty && forall j | 0 <= j < 3 && j != k :: line[j] == sign
  {
    Count3(line, sign);
  }

  /** The completing test on the values of a line is the threat on the line itself. */
  lemma LineThreat(g: Grid, l: Line, sign: char, k: nat)
    requires ValidLine(l) && sign != Empty && k < 3
    ensures CompletingIndex(LineValues(g, l), sign) == Some(k) <==> Threat(g, l, sign, Cells(l)[k])
  {
    var cs := Cells(l);
    var v := LineValues(g, l);
    CompletingIndexIff(v, sign, k);
    assert cs == [cs[0], cs[1], cs[2]];
    assert cs[0] != cs[1] && cs[0] != cs[2] && cs[1] != cs[2];
  }

  /** Every threat on a line is found by the completing test at its index. */
  lemma ThreatIndex(g: Grid, l: Line, sign: char, c: Coord) returns (k: nat)
    requires ValidLine(l) && sign != Empty && Threat(g, l, sign, c)
    ensures k < 3 && Cells(l)[k] == c
    ensures CompletingIndex(LineValues(g, l), sign) == Some(k)
  {
    var cs := Cells(l);
    assert cs == [cs[0], cs[1], cs[2]];
    k := if c == cs[0] then 0 else if c == cs[1] then 1 else 2;
    LineThreat(g, l, sign, k);
  }

  /** A threat is a move that fills its line, so the grid becomes winning. */
  lemma ThreatFills(g: Grid, l: Line, sign: char, c: Coord)
    requires ValidLine(l) && sign != Empty && Threat(g, l, sign, c)
    ensures Filled(Place(g, c, sign), l, sign)
    ensures ThreeInARow(Place(g, c, sign), sign)
    ensures IsWinningGrid(Place(g, c, sign))
  {
    var h := Place(g, c, sign);
    forall d | d in Cells(l)
      ensures At(h, d) == sign
    {
    }
    assert ValidLine(l) && Filled(h, l, sign);
    assert ThreeInARow(h, sign);
    WinningGridIff(h);
  }

  /** A line whose completing test fails holds no threat. */
  lemma NoThreatOnLine(g: Grid, l: Line, sign: char)
    requires ValidLine(l) && sign != Empty && CompletingIndex(LineValues(g, l), sign).None?
    ensures forall c :: !Threat(g, l, sign, c)
  {
    forall c | Threat(g, l, sign, c)
      ensures false
    {
      var k := ThreatIndex(g, l, sign, c);
    }
  }

  /** The scans read row y, column x (a row of the transpose) and the diagonals as these lines. */
  lemma RowValues(g: Grid, y: nat)
    requires y < 3
    ensures g[y] == LineValues(g, Row(y))
  {
    assert g[y] == [g[y][0], g[y][1], g[y][2]];
  }

  lemma ColumnValues(g: Grid, x: nat)
    requires x < 3
    ensures Transposed(g)[x] == LineValues(g, Column(x))
  {
  }

  lemma DiagonalValues(g: Grid)
    ensures DiagonalOf(g) == LineValues(g, Diagonal)
    ensures AntiDiagonalOf(g) == LineValues(g, AntiDiagonal)
  {
  }

  /** The first row, from row y down, that sign can complete. */
  function RowThreatFrom(g: Grid, sign: char, y: nat): (r: Option<Coord>)
    requires y <= 3
    ensures r.Some? ==> y <= r.value.1 < 3 && r.value.0 < 3
    ensures r.Some? ==> CompletingIndex(g[r.value.1], sign) == Some(r.value.0)
    ensures r.Some? ==> forall k | y <= k < r.value.1 :: CompletingIndex(g[k], sign).None?
    ensures r.None? ==> forall k | y <= k < 3 :: CompletingIndex(g[k], sign).None?
    decreases 3 - y
  {
    if y == 3 then None
    else match CompletingIndex(g[y], sign)
      case Some(x) => Some((x, y))
      case None => RowThreatFrom(g, sign, y + 1)
  }

  /** What the row scan finds, in terms of threats on the rows. */
  lemma RowScanMeaning(g: Grid, sign: char)
    ensures var r := RowThreatFrom(g, sign, 0);
      sign != Empty ==>
      && (r.Some? ==> Threat(g, Row(r.value.1), sign, r.value))
      && (r.Some? ==> forall y, c | 0 <= y < r.value.1 :: !Threat(g, Row(y), sign, c))
      && (r.None? ==> forall y, c | 0 <= y < 3 :: !Threat(g, Row(y), sign, c))
  {
    var r := RowThreatFrom(g, sign, 0);
    if sign != Empty {
      var bound := if r.Some? then r.value.1 else 3;
      forall y | 0 <= y < bound
        ensures forall c :: !Threat(g, Row(y), sign, c)
      {
        RowValues(g, y);
        NoThreatOnLine(g, Row(y), sign);
      }
      if r.Some? {
        RowValues(g, r.value.1);
        LineThreat(g, Row(r.value.1), sign, r.value.0);
      }
    }
  }

  /**
   * The value get_winning_row_coordinate computes: a cell of the first row,
   * top to bottom, that sign can complete.
   */
  function RowThreat(board: Board, sign: char): (r: Option<Coord>)
    ensures r.Some? ==> IsEmptyAt(board.grid, r.value)
    ensures sign != Empty && r.Some? ==> Threat(board.grid, Row(r.value.1), sign, r.value)
    ensures sign != Empty && r.Some? ==>
              forall y, c | 0 <= y < r.value.1 :: !Threat(board.grid, Row(y), sign, c)
    ensures sign != Empty && r.None? ==> forall y, c | 0 <= y < 3 :: !Threat(board.grid, Row(y), sign, c)
  {
    RowScanMeaning(board.grid, sign);
    RowThreatFrom(board.grid, sign, 0)
  }

  /** get_winning_row_coordinate: the rows top to bottom, returning at the first hit. */
  method GetWinningRowCoordinate(board: Board, sign: char) returns (r: Option<Coord>)
    ensures r == RowThreat(board, sign)
  {
    for y := 0 to 3
      invariant RowThreatFrom(board.grid, sign, y) == RowThreat(board, sign)
    {
      var row := board.grid[y];
      var emptyValue := FirstEmpty(row);
      if emptyValue.Some? && Count(row, sign) == 2 {
        return Some((emptyValue.value, y));
      }
    }
    return None;
  }

  /** What the column scan finds, in terms of threats on the columns. */
  lemma ColumnScanMeaning(board: Board, sign: char)
    ensures var r := RowThreat(Transpose(board), sign);
      sign != Empty ==>
      && (r.Some? ==> Threat(board.grid, Column(r.value.1), sign, (r.value.1, r.value.0)))
      && (r.None? ==> forall x, c | 0 <= x < 3 :: !Threat(board.grid, Column(x), sign, c))
  {
    var g := board.grid;
    var t := Transpose(board).grid;
    var r := RowThreatFrom(t, sign, 0);
    if sign != Empty {
      if r.Some? {
        RowValues(t, r.value.1);
        ColumnValues(g, r.value.1);
        assert CompletingIndex(t[r.value.1], sign) == Some(r.value.0);
        LineThreat(g, Column(r.value.1), sign, r.value.0);
      } else {
        forall x | 0 <= x < 3
          ensures forall c :: !Threat(g, Column(x), sign, c)
        {
          ColumnValues(g, x);
          NoThreatOnLine(g, Column(x), sign);
        }
      }
    }
  }

  /**
   * get_winning_column_coordinate: a row hit on the transposed board, with
   * its coordinate swapped back.
   */
  function ColumnThreat(board: Board, sign: char): (r: Option<Coord>)
    ensures r.Some? ==> IsEmptyAt(board.grid, r.value)
    ensures sign != Empty && r.Some? ==> Threat(board.grid, Column(r.value.0), sign, r.value)
    ensures sign != Empty && r.None? ==> forall x, c | 0 <= x < 3 :: !Threat(board.grid, Column(x), sign, c)
  {
    ColumnScanMeaning(board, sign);
    match RowThreat(Transpose(board), sign)
    case Some(coordinate) => Some((coordinate.1, coordinate.0))
    case None => None
  }

  /** What the diagonal scan finds, in terms of threats on the two diagonals. */
  lemma DiagonalScanMeaning(g: Grid, sign: char)
    ensures var topBottom := CompletingIndex(DiagonalOf(g), sign);
      var bottomTop := CompletingIndex(AntiDiagonalOf(g), sign);
      sign != Empty ==>
      && (topBottom.Some? ==> Threat(g, Diagonal, sign, (topBottom.value, topBottom.value)))
      && (topBottom.None? ==> forall c :: !Threat(g, Diagonal, sign, c))
      && (bottomTop.Some? ==> Threat(g, AntiDiagonal, sign, (2 - bottomTop.value, bottomTop.value)))
      && (bottomTop.None? ==> forall c :: !Threat(g, AntiDiagonal, sign, c))
  {
    var topBottom := CompletingIndex(DiagonalOf(g), sign);
    var bottomTop := CompletingIndex(AntiDiagonalOf(g), sign);
    if sign != Empty {
      DiagonalValues(g);
      if topBottom.Some? {
        LineThreat(g, Diagonal, sign, topBottom.value);
      } else {
        NoThreatOnLine(g, Diagonal, sign);
      }
      if bottomTop.Some? {
        LineThreat(g, AntiDiagonal, sign, bottomTop.value);
      } else {
        NoThreatOnLine(g, AntiDiagonal, sign);
      }
    }
  }

  /**
   * The value get_winning_diagonal_coordinate computes: a cell (e, e) of the
   * main diagonal that sign can complete, else a cell (2 - e, e) of the
   * anti-diagonal.
   */
  function DiagonalThreat(board: Board, sign: char): (r: Option<Coord>)
    ensures r.Some? ==> IsEmptyAt(board.grid, r.value)
    ensures sign != Empty && r.Some? ==>
              Threat(board.grid, Diagonal, sign, r.value) || Threat(board.grid, AntiDiagonal, sign, r.value)
    ensures sign != Empty && r.Some? && (exists c :: Threat(board.grid, Diagonal, sign, c)) ==>
              Threat(board.grid, Diagonal, sign, r.value)
    ensures sign != Empty && r.None? ==>
              forall c :: !Threat(board.grid, Diagonal, sign, c) && !Threat(board.grid, AntiDiagonal, sign, c)
  {
    DiagonalScanMeaning(board.grid, sign);
    var topBottom := CompletingIndex(DiagonalOf(board.grid), sign);
    var bottomTop := CompletingIndex(AntiDiagonalOf(board.grid), sign);
    if topBottom.Some? then Some((topBottom.value, topBottom.value))
    else if bottomTop.Some? then Some((2 - bottomTop.value, bottomTop.value))
    else None
  }

  /** get_winning_diagonal_coordinate: collects both diagonals in a loop, then tests each. */
  method GetWinningDiagonalCoordinate(board: Board, sign: char) returns (r: Option<Coord>)
    ensures r == DiagonalThreat(board, sign)
  {
    var topBottomDiagonal: seq<char> := [];
    var bottomTopDiagonal: seq<char> := [];
    for x := 0 to 3
      invariant |topBottomDiagonal| == x && |bottomTopDiagonal| == x
      invariant forall k | 0 <= k < x :: topBottomDiagonal[k] == board.grid[k][k]
      invariant forall k | 0 <= k < x :: bottomTopDiagonal[k] == board.grid[k][2 - k]
    {
      topBottomDiagonal := topBottomDiagonal + [board.grid[x][x]];
      bottomTopDiagonal := bottomTopDiagonal + [board.grid[x][2 - x]];
    }
    assert topBottomDiagonal == DiagonalOf(board.grid);
    assert bottomTopDiagonal == AntiDiagonalOf(board.grid);
    var emptyValue := FirstEmpty(topBottomDiagonal);
    if emptyValue.Some? && Count(topBottomDiagonal, sign) == 2 {
      return Some((emptyValue.value, emptyValue.value));
    }
    emptyValue := FirstEmpty(bottomTopDiagonal);
    if emptyValue.Some? && Count(bottomTopDiagonal, sign) == 2 {
      return Some((2 - emptyValue.value, emptyValue.value));
    }
    return None;
  }

  /**
   * The value winning_move computes: the row hit, else the column hit, else
   * the diagonal hit. Its cell is empty and, for a real sign, fills a line;
   * it finds nothing only when no line has a threat.
   */
  function Completion(board: Board, sign: char): (r: Option<Coord>)
    ensures r.Some? ==> IsEmptyAt(board.grid, r.value)
    ensures sign != Empty && r.Some? ==> CompletesLine(board.grid, sign, r.value)
    ensures sign != Empty && r.None? ==> forall l, c | ValidLine(l) :: !Threat(board.grid, l, sign, c)
  {
    var row := RowThreat(board, sign);
    var column := ColumnThreat(board, sign);
    var diagonal := DiagonalThreat(board, sign);
    if row.Some? then row
    else if column.Some? then column
    else if diagonal.Some? then diagonal
    else if sign != Empty then
      NoThreatOnAnyLine(board, sign);
      None
    else None
  }

  /** When none of the three scans finds anything, no line of the grid holds a threat. */
  lemma NoThreatOnAnyLine(board: Board, sign: char)
    requires sign != Empty
    requires RowThreat(board, sign).None? && ColumnThreat(board, sign).None? && DiagonalThreat(board, sign).None?
    ensures forall l, c | ValidLine(l) :: !Threat(board.grid, l, sign, c)
  {
    forall l, c | ValidLine(l)
      ensures !Threat(board.grid, l, sign, c)
    {
      match l
      case Row(y) =>
      case Column(x) =>
      case Diagonal =>
      case AntiDiagonal =>
    }
  }

  /** winning_move: tries the row, column and diagonal finders in that order. */
  method WinningMove(board: Board, sign: char) returns (r: Option<Coord>)
    ensures r == Completion(board, sign)
  {
    var winningCoordinateFunctions: seq<(Board, char) -> Option<Coord>> :=
      [RowThreat, ColumnThreat, DiagonalThreat];
    assert winningCoordinateFunctions[0](board, sign) == RowThreat(board, sign);
    assert winningCoordinateFunctions[1](board, sign) == ColumnThreat(board, sign);
    assert winningCoordinateFunctions[2](board, sign) == DiagonalThreat(board, sign);
    for i := 0 to 3
      invariant forall k | 0 <= k < i :: winningCoordinateFunctions[k](board, sign).None?
    {
      var winningCoordinate := winningCoordinateFunctions[i](board, sign);
      if winningCoordinate.Some? {
        return winningCoordinate;
      }
    }
    return None;
  }

  /** Playing the winning move wins: add_value succeeds and the grid becomes winning. */
  lemma CompletionWins(board: Board, sign: char)
    requires sign != Empty && Completion(board, sign).Some?
    ensures AddValue(board, Completion(board, sign).value, sign).Ok?
    ensures IsWinningGrid(AddValue(board, Completion(board, sign).value, sign).value.grid)
  {
    var c := Completion(board, sign).value;
    var l :| ValidLine(l) && Threat(board.grid, l, sign, c);
    ThreatFills(board.grid, l, sign, c);
    AddValueIsPlace(board, c, sign);
  }

  /** winning_move finds a move exactly when some empty cell fills a line of sign. */
  lemma CompletionIff(board: Board, sign: char)
    requires sign != Empty
    ensures Completion(board, sign).Some? <==> exists c :: CompletesLine(board.grid, sign, c)
  {
    if exists c :: CompletesLine(board.grid, sign, c) {
      var c :| CompletesLine(board.grid, sign, c);
      var l :| ValidLine(l) && Threat(board.grid, l, sign, c);
    }
  }

  /**
   * Reference for one line of three signs a, b, c: the index of the empty
   * one when the other two hold sign.
   */
  function LineHit(a: char, b: char, c: char, sign: char): Option<nat> {
    if a == Empty && b == sign && c == sign then Some(0)
    else if b == Empty && a == sign && c == sign then Some(1)
    else if c == Empty && a == sign && b == sign then Some(2)
    else None
  }

  /** For a real sign the completing test on a line of three is LineHit. */
  lemma CompletingIndexIsLineHit(line: seq<char>, sign: char)
    requires |line| == 3 && sign != Empty
    ensures CompletingIndex(line, sign) == LineHit(line[0], line[1], line[2], sign)
  {
    Count3(line, sign);
  }

  /** Reference for the row scan written out: rows 0 to 2. */
  function RowLineScan(g: Grid, sign: char): Option<Coord> {
    if LineHit(g[0][0], g[0][1], g[0][2], sign).Some? then Some((LineHit(g[0][0], g[0][1], g[0][2], sign).value, 0))
    else if LineHit(g[1][0], g[1][1], g[1][2], sign).Some? then Some((LineHit(g[1][0], g[1][1], g[1][2], sign).value, 1))
    else if LineHit(g[2][0], g[2][1], g[2][2], sign).Some? then Some((LineHit(g[2][0], g[2][1], g[2][2], sign).value, 2))
    else None
  }

  /** Reference for the column scan written out: columns 0 to 2. */
  function ColumnLineScan(g: Grid, sign: char): Option<Coord> {
    if LineHit(g[0][0], g[1][0], g[2][0], sign).Some? then Some((0, LineHit(g[0][0], g[1][0], g[2][0], sign).value))
    else if LineHit(g[0][1], g[1][1], g[2][1], sign).Some? then Some((1, LineHit(g[0][1], g[1][1], g[2][1], sign).value))
    else if LineHit(g[0][2], g[1][2], g[2][2], sign).Some? then Some((2, LineHit(g[0][2], g[1][2], g[2][2], sign).value))
    else None
  }

  /** Reference for the diagonal scan written out: the main diagonal (e, e), then the anti-diagonal (2 - e, e). */
  function DiagonalLineScan(g: Grid, sign: char): Option<Coord> {
    if LineHit(g[0][0], g[1][1], g[2][2], sign).Some? then
      Some((LineHit(g[0][0], g[1][1], g[2][2], sign).value, LineHit(g[0][0], g[1][1], g[2][2], sign).value))
    else if LineHit(g[0][2], g[1][1], g[2][0], sign).Some? then
      Some((2 - LineHit(g[0][2], g[1][1], g[2][0], sign).value, LineHit(g[0][2], g[1][1], g[2][0], sign).value))
    else None
  }

  /** Reference for winning_move written out over the eight lines in its scan order. */
  function LineScan(g: Grid, sign: char): Option<Coord> {
    if RowLineScan(g, sign).Some? then RowLineScan(g, sign)
    else if ColumnLineScan(g, sign).Some? then ColumnLineScan(g, sign)
    else DiagonalLineScan(g, sign)
  }

  lemma RowThreatIsLineScan(board: Board, sign: char)
    requires sign != Empty
    ensures RowThreat(board, sign) == RowLineScan(board.grid, sign)
  {
    var g := board.grid;
    CompletingIndexIsLineHit(g[0], sign);
    CompletingIndexIsLineHit(g[1], sign);
    CompletingIndexIsLineHit(g[2], sign);
    assert RowThreatFrom(g, sign, 3) == None;
  }

  lemma ColumnThreatIsLineScan(board: Board, sign: char)
    requires sign != Empty
    ensures ColumnThreat(board, sign) == ColumnLineScan(board.grid, sign)
  {
    var t := Transpose(board);
    RowThreatIsLineScan(t, sign);
    assert t.grid[0][0] == board.grid[0][0] && t.grid[0][1] == board.grid[1][0] && t.grid[0][2] == board.grid[2][0];
    assert t.grid[1][0] == board.grid[0][1] && t.grid[1][1] == board.grid[1][1] && t.grid[1][2] == board.grid[2][1];
    assert t.grid[2][0] == board.grid[0][2] && t.grid[2][1] == board.grid[1][2] && t.grid[2][2] == board.grid[2][2];
  }

  lemma DiagonalThreatIsLineScan(board: Board, sign: char)
    requires sign != Empty
    ensures DiagonalThreat(board, sign) == DiagonalLineScan(board.grid, sign)
  {
    CompletingIndexIsLineHit(DiagonalOf(board.grid), sign);
    CompletingIndexIsLineHit(AntiDiagonalOf(board.grid), sign);
  }

  /** For a real sign, winning_move finds exactly the cell of the written-out eight-line scan. */
  lemma CompletionIsLineScan(board: Board, sign: char)
    requires sign != Empty
    ensures Completion(board, sign) == LineScan(board.grid, sign)
  {
    RowThreatIsLineScan(board, sign);
    ColumnThreatIsLineScan(board, sign);
    DiagonalThreatIsLineScan(board, sign);
  }

  // ---------------------------------------------------------------------------
  // Two winning moves
  // ---------------------------------------------------------------------------

  /** two_winning_moves: after the opponent takes the first winning cell, sign can still win. */
  function TwoWinningMoves(board: Board, sign: char): bool {
    match Completion(board, sign)
    case Some(coordinate) =>
      var attemptedGrid := AddValue(board, coordinate, Opponent(sign));
      Completion(attemptedGrid.value, sign).Some?
    case None => false
  }

  /** Reference definition of a fork: two different cells each fill a line of sign. */
  ghost predicate HasFork(g: Grid, sign: char) {
    exists c1, c2 :: c1 != c2 && CompletesLine(g, sign, c1) && CompletesLine(g, sign, c2)
  }

  /** A threat survives a mark on another empty cell. */
  lemma ThreatSurvives(g: Grid, l: Line, sign: char, c: Coord, p: Coord, mark: char)
    requires ValidLine(l) && sign != Empty && Threat(g, l, sign, c)
    requires IsEmptyAt(g, p) && p != c
    ensures Threat(Place(g, p, mark), l, sign, c)
  {
  }

  /** A threat after a mark other than sign on cell p was a threat before, on another cell than p. */
  lemma ThreatBefore(g: Grid, l: Line, sign: char, c: Coord, p: Coord, mark: char)
    requires ValidLine(l) && IsEmptyAt(g, p) && mark != sign && mark != Empty
    requires Threat(Place(g, p, mark), l, sign, c)
    ensures c != p && Threat(g, l, sign, c)
  {
  }

  /** two_winning_moves holds exactly when sign has winning moves on two different cells. */
  lemma TwoWinningMovesIff(board: Board, sign: char)
    requires sign != Empty
    ensures TwoWinningMoves(board, sign) <==> HasFork(board.grid, sign)
  {
    var g := board.grid;
    var opponent := Opponent(sign);
    if TwoWinningMoves(board, sign) {
      var c1 := Completion(board, sign).value;
      AddValueIsPlace(board, c1, opponent);
      var g' := Place(g, c1, opponent);
      var c2 := Completion(Board(g'), sign).value;
      var l2 :| ValidLine(l2) && Threat(g', l2, sign, c2);
      ThreatBefore(g, l2, sign, c2, c1, opponent);
      assert CompletesLine(g, sign, c1) && CompletesLine(g, sign, c2);
    }
    if HasFork(g, sign) {
      var c1, c2 :| c1 != c2 && CompletesLine(g, sign, c1) && CompletesLine(g, sign, c2);
      CompletionIff(board, sign);
      var first := Completion(board, sign).value;
      var other := if c1 != first then c1 else c2;
      var l :| ValidLine(l) && Threat(g, l, sign, other);
      AddValueIsPlace(board, first, opponent);
      ThreatSurvives(g, l, sign, other, first, opponent);
      assert CompletesLine(Place(g, first, opponent), sign, other);
    }
  }

  // ---------------------------------------------------------------------------
  // Filtering a sequence by a set, keeping its order
  // ---------------------------------------------------------------------------

  /** The elements of s that are in targets, in the order of s. */
  function Filter(s: seq<Coord>, targets: set<Coord>): seq<Coord> {
    if s == [] then []
    else (if s[0] in targets then [s[0]] else []) + Filter(s[1..], targets)
  }

  /** The filtered sequence holds exactly the elements of s that are targets. */
  lemma {:induction false} FilterMembers(s: seq<Coord>, targets: set<Coord>)
    ensures forall c :: c in Filter(s, targets) <==> c in s && c in targets
  {
    if s != [] {
      FilterMembers(s[1..], targets);
      assert s == [s[0]] + s[1..];
    }
  }

  lemma {:induction false} FilterAppend(s: seq<Coord>, c: Coord, targets: set<Coord>)
    ensures Filter(s + [c], targets) == Filter(s, targets) + (if c in targets then [c] else [])
  {
    if s != [] {
      assert (s + [c])[1..] == s[1..] + [c];
      FilterAppend(s[1..], c, targets);
    }
  }

  /** The first element of the filtered sequence among u is the first element of s among both sets. */
  lemma {:induction false} FirstInFilter(s: seq<Coord>, targets: set<Coord>, u: set<Coord>)
    ensures FirstIn(Filter(s, targets), u) == FirstIn(s, targets * u)
  {
    if s != [] {
      var rest := Filter(s[1..], targets);
      FirstInFilter(s[1..], targets, u);
      if s[0] in targets {
        var f := [s[0]] + rest;
        assert Filter(s, targets) == f;
        assert f[0] == s[0] && f[1..] == rest;
      } else {
        assert Filter(s, targets) == [] + rest == rest;
      }
    }
  }

  // ---------------------------------------------------------------------------
  // Fork
  // ---------------------------------------------------------------------------

  /** The test fork_move applies to an empty cell: sign played there leaves two winning moves. */
  predicate CreatesFork(board: Board, sign: char, c: Coord)
    requires IsEmptyAt(board.grid, c)
  {
    var attemptedGrid := AddValue(board, c, sign).value;
    TwoWinningMoves(attemptedGrid, sign)
  }

  /** For a real sign, creating a fork means the new grid has winning moves on two different cells. */
  lemma CreatesForkIff(board: Board, sign: char, c: Coord)
    requires sign != Empty && IsEmptyAt(board.grid, c)
    ensures CreatesFork(board, sign, c) <==> HasFork(Place(board.grid, c, sign), sign)
  {
    AddValueIsPlace(board, c, sign);
    TwoWinningMovesIff(Board(Place(board.grid, c, sign)), sign);
  }

  /** The empty cells at which sign creates a fork. */
  function ForkCells(board: Board, sign: char): set<Coord> {
    set c | c in EmptySquares(board.grid) && CreatesFork(board, sign, c)
  }

  lemma InForkCells(board: Board, sign: char, c: Coord)
    requires IsEmptyAt(board.grid, c)
    ensures c in ForkCells(board, sign) <==> TwoWinningMoves(AddValue(board, c, sign).value, sign)
  {
  }

  /** The value fork_move computes: the first empty cell, in row-major order, that creates a fork. */
  function FirstFork(board: Board, sign: char): (r: Option<Coord>)
    ensures r.Some? ==> IsEmptyAt(board.grid, r.value) && CreatesFork(board, sign, r.value)
  {
    FirstInIsLeast(EmptySquares(board.grid), ForkCells(board, sign));
    FirstIn(EmptySquares(board.grid), ForkCells(board, sign))
  }

  /**
   * fork_move finds nothing only when no empty cell creates a fork, and what
   * it finds comes first in row-major order among the cells that do.
   */
  lemma FirstForkLeast(board: Board, sign: char)
    ensures var r := FirstFork(board, sign);
      && (r.Some? ==> forall c | IsEmptyAt(board.grid, c) && CreatesFork(board, sign, c) ::
                        RowMajor(r.value) <= RowMajor(c))
      && (r.None? ==> forall c | IsEmptyAt(board.grid, c) :: !CreatesFork(board, sign, c))
  {
    FirstInIsLeast(EmptySquares(board.grid), ForkCells(board, sign));
  }

  /** Distinct cells of the grid have distinct row-major positions. */
  lemma RowMajorInjective(c: Coord, d: Coord)
    requires InBounds(c) && InBounds(d) && RowMajor(c) == RowMajor(d)
    ensures c == d
  {
  }

  /**
   * fork_move returns c exactly when c is an empty cell that creates a fork
   * and no empty cell before it in row-major order does.
   */
  lemma FirstForkIff(board: Board, sign: char, c: Coord)
    ensures FirstFork(board, sign) == Some(c) <==>
              IsEmptyAt(board.grid, c) && CreatesFork(board, sign, c) &&
              forall d | IsEmptyAt(board.grid, d) && RowMajor(d) < RowMajor(c) :: !CreatesFork(board, sign, d)
  {
    var r := FirstFork(board, sign);
    FirstForkLeast(board, sign);
    if IsEmptyAt(board.grid, c) && CreatesFork(board, sign, c) &&
       forall d | IsEmptyAt(board.grid, d) && RowMajor(d) < RowMajor(c) :: !CreatesFork(board, sign, d)
    {
      assert r.Some?;
      RowMajorInjective(r.value, c);
    }
  }

  /** fork_move: scans the empty squares and returns the first that creates a fork. */
  method ForkMove(board: Board, sign: char) returns (r: Option<Coord>)
    ensures r == FirstFork(board, sign)
  {
    var emptySquares := GetEmptySquares(board);
    for i := 0 to |emptySquares|
      invariant FirstIn(emptySquares[i..], ForkCells(board, sign)) == FirstFork(board, sign)
    {
      var square := emptySquares[i];
      FirstInStep(emptySquares, i, ForkCells(board, sign));
      assert IsEmptyAt(board.grid, square);
      var attemptedGrid := AddValue(board, square, sign).value;
      InForkCells(board, sign, square);
      if TwoWinningMoves(attemptedGrid, sign) {
        return Some(square);
      }
    }
    return None;
  }

  // ---------------------------------------------------------------------------
  // A fork needs room: three cells of its sign and two empty cells
  // ---------------------------------------------------------------------------

  /** Two threats of one real sign on the same line are the same cell. */
  lemma OneThreatPerLine(g: Grid, l: Line, sign: char, c1: Coord, c2: Coord)
    requires ValidLine(l) && sign != Empty
    requires Threat(g, l, sign, c1) && Threat(g, l, sign, c2)
    ensures c1 == c2
  {
  }

  /** Two different lines have at most one cell in common. */
  lemma LinesMeetOnce(l1: Line, l2: Line, a: Coord, b: Coord)
    requires ValidLine(l1) && ValidLine(l2) && a != b
    requires a in Cells(l1) && b in Cells(l1) && a in Cells(l2) && b in Cells(l2)
    ensures l1 == l2
  {
  }

  /** The two marked cells of a threat, when every cell of sign is p or q, are p and q. */
  lemma ThreatMarks(g: Grid, l: Line, sign: char, c: Coord, p: Coord, q: Coord)
    requires ValidLine(l) && sign != Empty && Threat(g, l, sign, c)
    requires forall d | InBounds(d) && At(g, d) == sign :: d == p || d == q
    ensures p != q && p in Cells(l) && q in Cells(l)
  {
    var cs := Cells(l);
    assert cs == [cs[0], cs[1], cs[2]];
    var others := if c == cs[0] then [cs[1], cs[2]] else if c == cs[1] then [cs[0], cs[2]] else [cs[0], cs[1]];
    assert others[0] != others[1];
    assert At(g, others[0]) == sign && At(g, others[1]) == sign;
  }

  /** A fork needs three cells of sign: with all of them among p and q there is none. */
  lemma ForkNeedsThreeMarks(g: Grid, sign: char, p: Coord, q: Coord)
    requires sign != Empty
    requires forall c | InBounds(c) && At(g, c) == sign :: c == p || c == q
    ensures !HasFork(g, sign)
  {
    if HasFork(g, sign) {
      var c1, c2 :| c1 != c2 && CompletesLine(g, sign, c1) && CompletesLine(g, sign, c2);
      var l1 :| ValidLine(l1) && Threat(g, l1, sign, c1);
      var l2 :| ValidLine(l2) && Threat(g, l2, sign, c2);
      if l1 == l2 {
        OneThreatPerLine(g, l1, sign, c1, c2);
      } else {
        ThreatMarks(g, l1, sign, c1, p, q);
        ThreatMarks(g, l2, sign, c2, p, q);
        LinesMeetOnce(l1, l2, p, q);
      }
    }
  }

  /** A fork needs two empty cells: with every empty cell equal to p there is none. */
  lemma ForkNeedsTwoEmptyCells(g: Grid, sign: char, p: Coord)
    requires sign != Empty
    requires forall c | IsEmptyAt(g, c) :: c == p
    ensures !HasFork(g, sign)
  {
    if HasFork(g, sign) {
      var c1, c2 :| c1 != c2 && CompletesLine(g, sign, c1) && CompletesLine(g, sign, c2);
      var l1 :| ValidLine(l1) && Threat(g, l1, sign, c1);
      var l2 :| ValidLine(l2) && Threat(g, l2, sign, c2);
      assert IsEmptyAt(g, c1) && IsEmptyAt(g, c2);
    }
  }

  /** With at most one cell of sign on the board, sign has no fork move. */
  lemma NoForkMoveWithOneMark(board: Board, sign: char)
    requires sign != Empty && Occurrences(board.grid, sign) <= 1
    ensures FirstFork(board, sign) == None
  {
    var p := AtMostOnce(board.grid, sign);
    forall c | IsEmptyAt(board.grid, c)
      ensures !CreatesFork(board, sign, c)
    {
      CreatesForkIff(board, sign, c);
      ForkNeedsThreeMarks(Place(board.grid, c, sign), sign, p, c);
    }
  }

  /** With at most two empty cells, no move makes a fork. */
  lemma NoForkMoveWithTwoEmptyCells(board: Board, sign: char)
    requires sign != Empty && Occurrences(board.grid, Empty) <= 2
    ensures FirstFork(board, sign) == None
  {
    forall c | IsEmptyAt(board.grid, c)
      ensures !CreatesFork(board, sign, c)
    {
      var h := Place(board.grid, c, sign);
      OccurrencesAfterPlace(board.grid, c, sign, Empty);
      var p := AtMostOnce(h, Empty);
      CreatesForkIff(board, sign, c);
      ForkNeedsTwoEmptyCells(h, sign, p);
    }
  }

  // ---------------------------------------------------------------------------
  // Block a fork opportunity
  // ---------------------------------------------------------------------------

  /** The test block_fork_opportunity_move applies: the opponent, playing c, would then have a fork move. */
  predicate GivesOpponentFork(board: Board, sign: char, c: Coord)
    requires IsEmptyAt(board.grid, c)
  {
    var opponentSign := Opponent(sign);
    var attemptedBoard := AddValue(board, c, opponentSign).value;
    FirstFork(attemptedBoard, opponentSign).Some?
  }

  /** The fork opportunities of the opponent: the empty cells that pass that test. */
  function OpportunityCells(board: Board, sign: char): set<Coord> {
    set c | c in EmptySquares(board.grid) && GivesOpponentFork(board, sign, c)
  }

  lemma OpportunityCellsIff(board: Board, sign: char)
    ensures forall c :: c in OpportunityCells(board, sign) <==>
                          IsEmptyAt(board.grid, c) && GivesOpponentFork(board, sign, c)
  {
  }

  lemma InOpportunityCells(board: Board, sign: char, c: Coord)
    requires IsEmptyAt(board.grid, c)
    ensures c in OpportunityCells(board, sign) <==>
              FirstFork(AddValue(board, c, Opponent(sign)).value, Opponent(sign)).Some?
  {
  }

  /**
   * The choice among the opportunities collected in row-major order: nothing
   * when there is none; otherwise the centre if it is one, else the first
   * corner among them, else the first of them.
   */
  function ChoiceAmong(opportunities: seq<Coord>): (r: Option<Coord>)
    ensures r.Some? ==> r.value in opportunities
    ensures r.None? <==> opportunities == []
  {
    if opportunities == [] then None
    else if (1, 1) in opportunities then Some((1, 1))
    else if FirstIn(opportunities, Corners).Some? then FirstIn(opportunities, Corners)
    else Some(opportunities[0])
  }

  /** Made on the row-major filtered squares, that choice prefers the centre, then the least corner, then the least cell. */
  lemma ChoiceAmongFilter(squares: seq<Coord>, targets: set<Coord>)
    requires Increasing(squares)
    ensures var r := ChoiceAmong(Filter(squares, targets));
      && (r.Some? ==> r.value in squares && r.value in targets)
      && (r.None? <==> forall c | c in squares :: c !in targets)
      && ((1, 1) in squares && (1, 1) in targets ==> r == Some((1, 1)))
      && (r.Some? && r.value != (1, 1) ==>
            forall c | c in Corners && c in squares && c in targets :: r.value in Corners && RowMajor(r.value) <= RowMajor(c))
      && (r.Some? && r.value != (1, 1) && r.value !in Corners ==>
            forall c | c in squares && c in targets :: RowMajor(r.value) <= RowMajor(c))
  {
    var opportunities := Filter(squares, targets);
    FilterMembers(squares, targets);
    FirstInFilter(squares, targets, Corners);
    FirstInFilter(squares, targets, targets);
    assert targets * targets == targets;
    FirstInIsLeast(squares, targets * Corners);
    FirstInIsLeast(squares, targets);
    if opportunities != [] {
      assert FirstIn(opportunities, targets) == Some(opportunities[0]);
    }
  }

  /**
   * The value block_fork_opportunity_move computes: nothing when the opponent
   * has no fork opportunity; otherwise the centre if it is one, else the first
   * corner opportunity in row-major order, else the first opportunity.
   */
  function BlockForkChoice(board: Board, sign: char): (r: Option<Coord>)
    ensures r.Some? ==> IsEmptyAt(board.grid, r.value) && GivesOpponentFork(board, sign, r.value)
  {
    BlockForkChoiceFound(board, sign);
    ChoiceAmong(Filter(EmptySquares(board.grid), OpportunityCells(board, sign)))
  }

  lemma BlockForkChoiceFound(board: Board, sign: char)
    ensures var r := ChoiceAmong(Filter(EmptySquares(board.grid), OpportunityCells(board, sign)));
      r.Some? ==> IsEmptyAt(board.grid, r.value) && GivesOpponentFork(board, sign, r.value)
  {
    OpportunityCellsIff(board, sign);
    ChoiceAmongFilter(EmptySquares(board.grid), OpportunityCells(board, sign));
  }

  /** block_fork_opportunity_move finds nothing exactly when the opponent has no fork opportunity. */
  lemma BlockForkChoiceNone(board: Board, sign: char)
    ensures BlockForkChoice(board, sign).None? <==> forall c | IsEmptyAt(board.grid, c) :: !GivesOpponentFork(board, sign, c)
  {
    OpportunityCellsIff(board, sign);
    ChoiceAmongFilter(EmptySquares(board.grid), OpportunityCells(board, sign));
  }

  /**
   * Among the opponent's fork opportunities, block_fork_opportunity_move
   * prefers the centre, then the least corner in row-major order, then the
   * least cell.
   */
  lemma BlockForkChoicePreference(board: Board, sign: char)
    ensures var r := BlockForkChoice(board, sign);
      && (IsEmptyAt(board.grid, (1, 1)) && GivesOpponentFork(board, sign, (1, 1)) ==> r == Some((1, 1)))
      && (r.Some? && r.value != (1, 1) ==>
            forall c | c in Corners && IsEmptyAt(board.grid, c) && GivesOpponentFork(board, sign, c) ::
              r.value in Corners && RowMajor(r.value) <= RowMajor(c))
      && (r.Some? && r.value != (1, 1) && r.value !in Corners ==>
            forall c | IsEmptyAt(board.grid, c) && GivesOpponentFork(board, sign, c) ::
              RowMajor(r.value) <= RowMajor(c))
  {
    OpportunityCellsIff(board, sign);
    ChoiceAmongFilter(EmptySquares(board.grid), OpportunityCells(board, sign));
  }

  /**
   * block_fork_opportunity_move returns corner c when the centre is no
   * opportunity, c is one and no corner before it in row-major order is.
   */
  lemma BlockForkChoiceCorner(board: Board, sign: char, c: Coord)
    requires c in Corners && IsEmptyAt(board.grid, c) && GivesOpponentFork(board, sign, c)
    requires !(IsEmptyAt(board.grid, (1, 1)) && GivesOpponentFork(board, sign, (1, 1)))
    requires forall d | d in Corners && IsEmptyAt(board.grid, d) && RowMajor(d) < RowMajor(c) ::
               !GivesOpponentFork(board, sign, d)
    ensures BlockForkChoice(board, sign) == Some(c)
  {
    BlockForkChoiceNone(board, sign);
    BlockForkChoicePreference(board, sign);
    var r := BlockForkChoice(board, sign);
    assert r.Some? && r.value != (1, 1);
    RowMajorInjective(r.value, c);
  }

  /** Without any mark of the opponent on the board, the opponent has no fork opportunity. */
  lemma NoOpportunityWithoutOpponentMarks(board: Board, sign: char)
    requires Occurrences(board.grid, Opponent(sign)) == 0
    ensures BlockForkChoice(board, sign) == None
  {
    forall c | IsEmptyAt(board.grid, c)
      ensures !GivesOpponentFork(board, sign, c)
    {
      NoOpportunityAtWithoutOpponentMarks(board, sign, c);
    }
    BlockForkChoiceNone(board, sign);
  }

  lemma NoOpportunityAtWithoutOpponentMarks(board: Board, sign: char, c: Coord)
    requires Occurrences(board.grid, Opponent(sign)) == 0 && IsEmptyAt(board.grid, c)
    ensures !GivesOpponentFork(board, sign, c)
  {
    AddValueIsPlace(board, c, Opponent(sign));
    OccurrencesAfterPlace(board.grid, c, Opponent(sign), Opponent(sign));
    NoForkMoveWithOneMark(AddValue(board, c, Opponent(sign)).value, Opponent(sign));
  }

  /** With at most two empty cells, the opponent has no fork opportunity. */
  lemma NoOpportunityWithTwoEmptyCells(board: Board, sign: char)
    requires Occurrences(board.grid, Empty) <= 2
    ensures BlockForkChoice(board, sign) == None
  {
    forall c | IsEmptyAt(board.grid, c)
      ensures !GivesOpponentFork(board, sign, c)
    {
      NoOpportunityAtWithTwoEmptyCells(board, sign, c);
    }
    BlockForkChoiceNone(board, sign);
  }

  lemma NoOpportunityAtWithTwoEmptyCells(board: Board, sign: char, c: Coord)
    requires Occurrences(board.grid, Empty) <= 2 && IsEmptyAt(board.grid, c)
    ensures !GivesOpponentFork(board, sign, c)
  {
    AddValueIsPlace(board, c, Opponent(sign));
    OccurrencesAfterPlace(board.grid, c, Opponent(sign), Empty);
    NoForkMoveWithTwoEmptyCells(AddValue(board, c, Opponent(sign)).value, Opponent(sign));
  }

  /**
   * block_fork_opportunity_move: collects the opponent's fork opportunities
   * in row-major order, then chooses among them.
   */
  method BlockForkOpportunityMove(board: Board, sign: char) returns (r: Option<Coord>)
    ensures r == BlockForkChoice(board, sign)
  {
    var opportunities := CollectOpportunities(board, sign);
    r := ChooseOpportunity(opportunities);
  }

  /**
   * The collecting part of block_fork_opportunity_move: every empty square at
   * which the opponent, having played there, would have a fork move.
   */
  method CollectOpportunities(board: Board, sign: char) returns (opportunities: seq<Coord>)
    ensures opportunities == Filter(EmptySquares(board.grid), OpportunityCells(board, sign))
  {
    var emptySquares := GetEmptySquares(board);
    var opponentSign := Opponent(sign);
    ghost var targets := OpportunityCells(board, sign);
    opportunities := [];
    for i := 0 to |emptySquares|
      invariant opportunities == Filter(emptySquares[..i], targets)
    {
      var square := emptySquares[i];
      assert IsEmptyAt(board.grid, square);
      var attemptedBoard := AddValue(board, square, opponentSign);
      var fork := ForkMove(attemptedBoard.value, opponentSign);
      CollectStep(board, sign, emptySquares, i, fork.Some?);
      if fork.Some? {
        opportunities := opportunities + [square];
      }
    }
    assert emptySquares[..|emptySquares|] == emptySquares;
  }

  /** One step of the collecting loop: the square at i is kept exactly when it is an opportunity. */
  lemma CollectStep(board: Board, sign: char, squares: seq<Coord>, i: nat, found: bool)
    requires i < |squares| && IsEmptyAt(board.grid, squares[i])
    requires found == FirstFork(AddValue(board, squares[i], Opponent(sign)).value, Opponent(sign)).Some?
    ensures Filter(squares[..i + 1], OpportunityCells(board, sign)) ==
              Filter(squares[..i], OpportunityCells(board, sign)) + (if found then [squares[i]] else [])
  {
    assert squares[..i + 1] == squares[..i] + [squares[i]];
    FilterAppend(squares[..i], squares[i], OpportunityCells(board, sign));
    InOpportunityCells(board, sign, squares[i]);
  }

  /**
   * The selection part of block_fork_opportunity_move: the centre if it was
   * collected, else the first collected corner, else the first collected cell.
   */
  method ChooseOpportunity(opportunities: seq<Coord>) returns (r: Option<Coord>)
    ensures r == ChoiceAmong(opportunities)
  {
    if opportunities == [] {
      return None;
    }
    for i := 0 to |opportunities|
      invariant (1, 1) !in opportunities[..i]
    {
      assert opportunities[..i + 1] == opportunities[..i] + [opportunities[i]];
      if opportunities[i] == (1, 1) {
        return Some(opportunities[i]);
      }
    }
    assert opportunities[..|opportunities|] == opportunities;
    for i := 0 to |opportunities|
      invariant FirstIn(opportunities[i..], Corners) == FirstIn(opportunities, Corners)
    {
      var opportunity := opportunities[i];
      assert opportunities[i..][1..] == opportunities[i + 1..];
      if opportunity == (0, 0) || opportunity == (0, 2) || opportunity == (2, 0) || opportunity == (2, 2) {
        return Some(opportunity);
      }
    }
    return Some(opportunities[0]);
  }

  // ---------------------------------------------------------------------------
  // The robot's choice
  // ---------------------------------------------------------------------------

  /**
   * The value get_robot_coordinate computes: the first rule, in priority
   * order, that proposes a cell; an error only when none does. Any cell it
   * returns is empty, so adding the robot's sign there succeeds.
   */
  function RobotChoice(board: Board, sign: char): (r: Result<Coord, string>)
    ensures r.Ok? ==> IsEmptyAt(board.grid, r.value) && AddValue(board, r.value, sign).Ok?
    ensures r.Err? ==> r.error == "No choice found"
  {
    var opponentSign := Opponent(sign);
    if Completion(board, sign).Some? then Ok(Completion(board, sign).value)
    else if Completion(board, opponentSign).Some? then Ok(Completion(board, opponentSign).value)
    else if FirstFork(board, sign).Some? then Ok(FirstFork(board, sign).value)
    else if FirstFork(board, opponentSign).Some? then Ok(FirstFork(board, opponentSign).value)
    else if BlockForkChoice(board, sign).Some? then Ok(BlockForkChoice(board, sign).value)
    else if TakeCenterMove(board).Some? then Ok(TakeCenterMove(board).value)
    else if FirstEmptyCorner(board.grid).Some? then Ok(FirstEmptyCorner(board.grid).value)
    else if FirstEmptySide(board.grid).Some? then Ok(FirstEmptySide(board.grid).value)
    else Err("No choice found")
  }

  /** get_robot_coordinate: asks each rule in priority order and returns the first proposal. */
  method GetRobotCoordinate(sign: char, board: Board) returns (r: Result<Coord, string>)
    ensures r == RobotChoice(board, sign)
    ensures r.Ok? ==> r.value.0 <= 2 && r.value.1 <= 2 && board.grid[r.value.1][r.value.0] == Empty
  {
    var opponentSign := Opponent(sign);
    var winningCoordinate := WinningMove(board, sign);
    if winningCoordinate.Some? {
      return Ok(winningCoordinate.value);
    }
    var blockingCoordinate := WinningMove(board, opponentSign);
    if blockingCoordinate.Some? {
      return Ok(blockingCoordinate.value);
    }
    var forkCoordinate := ForkMove(board, sign);
    if forkCoordinate.Some? {
      return Ok(forkCoordinate.value);
    }
    var blockForkCoordinate := ForkMove(board, opponentSign);
    if blockForkCoordinate.Some? {
      return Ok(blockForkCoordinate.value);
    }
    var blockForkOpportunityCoordinate := BlockForkOpportunityMove(board, sign);
    if blockForkOpportunityCoordinate.Some? {
      return Ok(blockForkOpportunityCoordinate.value);
    }
    var centerCoordinate := TakeCenterMove(board);
    if centerCoordinate.Some? {
      return Ok(centerCoordinate.value);
    }
    var cornerCoordinate := TakeCornerMove(board);
    if cornerCoordinate.Some? {
      return Ok(cornerCoordinate.value);
    }
    var sideCoordinate := TakeSideMove(board);
    if sideCoordinate.Some? {
      return Ok(sideCoordinate.value);
    }
    return Err("No choice found");
  }

  /** Centre, corners and sides cover the nine cells: when none of them is empty, the board is full. */
  lemma CoverAll(g: Grid)
    requires !IsEmptyAt(g, (1, 1))
    requires forall c | c in Corners :: !IsEmptyAt(g, c)
    requires forall c | c in Sides :: !IsEmptyAt(g, c)
    ensures NoEmptyCell(g)
  {
    forall y, x | 0 <= y < 3 && 0 <= x < 3
      ensures g[y][x] != Empty
    {
      var c: Coord := (x, y);
      assert c == (1, 1) || c in Corners || c in Sides;
      assert !IsEmptyAt(g, c);
    }
  }

  /** The robot finds no move exactly when the board has no empty cell. */
  lemma RobotErrIffFull(board: Board, sign: char)
    ensures RobotChoice(board, sign).Err? <==> NoEmptyCell(board.grid)
  {
    var g := board.grid;
    var opponentSign := Opponent(sign);
    if Completion(board, sign).Some? {
      assert IsEmptyAt(g, Completion(board, sign).value);
    } else if Completion(board, opponentSign).Some? {
      assert IsEmptyAt(g, Completion(board, opponentSign).value);
    } else if FirstFork(board, sign).Some? {
      assert IsEmptyAt(g, FirstFork(board, sign).value);
    } else if FirstFork(board, opponentSign).Some? {
      assert IsEmptyAt(g, FirstFork(board, opponentSign).value);
    } else if BlockForkChoice(board, sign).Some? {
      assert IsEmptyAt(g, BlockForkChoice(board, sign).value);
    } else if TakeCenterMove(board).Some? {
      assert IsEmptyAt(g, (1, 1));
    } else if FirstEmptyCorner(g).Some? {
      assert IsEmptyAt(g, FirstEmptyCorner(g).value);
    } else if FirstEmptySide(g).Some? {
      assert IsEmptyAt(g, FirstEmptySide(g).value);
    } else {
      CoverAll(g);
    }
  }

  /** When sign can fill a line in one move, the robot plays such a move and wins. */
  lemma RobotTakesWin(board: Board, sign: char, c: Coord)
    requires sign != Empty && CompletesLine(board.grid, sign, c)
    ensures RobotChoice(board, sign).Ok?
    ensures CompletesLine(board.grid, sign, RobotChoice(board, sign).value)
    ensures IsWinningGrid(AddValue(board, RobotChoice(board, sign).value, sign).value.grid)
  {
    CompletionIff(board, sign);
    CompletionWins(board, sign);
  }

  /**
   * When sign cannot win at once but the opponent could, the robot plays a
   * cell at which the opponent would have filled a line.
   */
  lemma RobotBlocks(board: Board, sign: char, c: Coord)
    requires sign != Empty && forall d :: !CompletesLine(board.grid, sign, d)
    requires CompletesLine(board.grid, Opponent(sign), c)
    ensures RobotChoice(board, sign).Ok?
    ensures CompletesLine(board.grid, Opponent(sign), RobotChoice(board, sign).value)
  {
    CompletionIff(board, sign);
    CompletionIff(board, Opponent(sign));
  }

  /**
   * When neither side can win at once and sign has a cell that makes a fork,
   * the robot plays the first such cell.
   */
  lemma RobotForks(board: Board, sign: char, c: Coord)
    requires sign != Empty
    requires forall d :: !CompletesLine(board.grid, sign, d) && !CompletesLine(board.grid, Opponent(sign), d)
    requires IsEmptyAt(board.grid, c) && HasFork(Place(board.grid, c, sign), sign)
    ensures RobotChoice(board, sign).Ok?
    ensures HasFork(Place(board.grid, RobotChoice(board, sign).value, sign), sign)
    ensures RowMajor(RobotChoice(board, sign).value) <= RowMajor(c)
  {
    CompletionIff(board, sign);
    CompletionIff(board, Opponent(sign));
    CreatesForkIff(board, sign, c);
    FirstForkLeast(board, sign);
    var r := FirstFork(board, sign).value;
    CreatesForkIff(board, sign, r);
  }

  /**
   * When nobody can win at once and sign has no fork move but the opponent
   * has one, the robot takes the opponent's first fork cell.
   */
  lemma RobotBlocksFork(board: Board, sign: char, c: Coord)
    requires sign != Empty
    requires forall d :: !CompletesLine(board.grid, sign, d) && !CompletesLine(board.grid, Opponent(sign), d)
    requires forall d | IsEmptyAt(board.grid, d) :: !HasFork(Place(board.grid, d, sign), sign)
    requires IsEmptyAt(board.grid, c) && HasFork(Place(board.grid, c, Opponent(sign)), Opponent(sign))
    ensures RobotChoice(board, sign).Ok?
    ensures HasFork(Place(board.grid, RobotChoice(board, sign).value, Opponent(sign)), Opponent(sign))
  {
    var opponentSign := Opponent(sign);
    CompletionIff(board, sign);
    CompletionIff(board, opponentSign);
    if FirstFork(board, sign).Some? {
      CreatesForkIff(board, sign, FirstFork(board, sign).value);
    }
    CreatesForkIff(board, opponentSign, c);
    FirstForkLeast(board, opponentSign);
    CreatesForkIff(board, opponentSign, FirstFork(board, opponentSign).value);
  }
}
