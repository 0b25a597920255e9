/**
 * The boards of the robot's own unit tests (src/robot_player.rs, module
 * tests), with the move the robot must choose on each, proved against the
 * model of get_robot_coordinate and two_winning_moves. Each lemma takes any
 * board whose grid is the test's grid.
 */
module RobotScenarios {
  import opened Wrappers
  import opened Boards
  import opened RobotPlayer

  /** two_winning_moves is false on the empty board. */
  lemma EmptyBoardNoTwoWinningMoves(b: Board)
    requires b.grid == [['-', '-', '-'], ['-', '-', '-'], ['-', '-', '-']]
    ensures !TwoWinningMoves(b, 'O')
  {
    CompletionIsLineScan(b, 'O');
  }

  /** two_winning_moves is true on a simple fork: 'O' threatens the main diagonal at (2, 2) and the anti-diagonal at (2, 0). */
  lemma SimpleForkTwoWinningMoves(b: Board)
    requires b.grid == [['O', '-', '-'], ['X', 'O', '-'], ['O', '-', '-']]
    ensures TwoWinningMoves(b, 'O')
  {
    CompletionIsLineScan(b, 'O');
    assert Completion(b, 'O') == Some((2, 2));
    CompletionIsLineScan(AddValue(b, (2, 2), 'X').value, 'O');
  }

  /** two_winning_moves is false on a single threat. */
  lemma SingleThreatNoTwoWinningMoves(b: Board)
    requires b.grid == [['O', '-', '-'], ['O', '-', '-'], ['-', '-', '-']]
    ensures !TwoWinningMoves(b, 'O')
  {
    CompletionIsLineScan(b, 'O');
    assert Completion(b, 'O') == Some((0, 2));
    CompletionIsLineScan(AddValue(b, (0, 2), 'X').value, 'O');
  }

  lemma WinsRowScenario(b: Board)
    requires b.grid == [['-', '-', 'X'], ['O', '-', 'O'], ['-', 'X', '-']]
    ensures RobotChoice(b, 'O') == Ok((1, 1))
  {
    CompletionIsLineScan(b, 'O');
  }

  lemma WinsColumnScenario(b: Board)
    requires b.grid == [['O', 'X', 'X'], ['O', '-', '-'], ['-', '-', '-']]
    ensures RobotChoice(b, 'O') == Ok((0, 2))
  {
    CompletionIsLineScan(b, 'O');
  }

  lemma WinsDiagonalScenario(b: Board)
    requires b.grid == [['O', 'X', 'X'], ['-', 'O', '-'], ['-', '-', '-']]
    ensures RobotChoice(b, 'O') == Ok((2, 2))
  {
    CompletionIsLineScan(b, 'O');
  }

  lemma BlocksRowScenario(b: Board)
    requires b.grid == [['-', 'X', 'X'], ['-', 'O', '-'], ['O', '-', '-']]
    ensures RobotChoice(b, 'O') == Ok((0, 0))
  {
    CompletionIsLineScan(b, 'O');
    CompletionIsLineScan(b, 'X');
  }

  lemma BlocksColumnScenario(b: Board)
    requires b.grid == [['-', '-', 'X'], ['-', 'O', 'X'], ['O', '-', '-']]
    ensures RobotChoice(b, 'O') == Ok((2, 2))
  {
    CompletionIsLineScan(b, 'O');
    CompletionIsLineScan(b, 'X');
  }

  lemma BlocksDiagonalScenario(b: Board)
    requires b.grid == [['-', 'O', 'X'], ['-', 'X', 'O'], ['-', '-', '-']]
    ensures RobotChoice(b, 'O') == Ok((0, 2))
  {
    CompletionIsLineScan(b, 'O');
    CompletionIsLineScan(b, 'X');
  }

  /** The "fork with middle" board: 'X' threatens row 1, so the block (1, 1) comes first. */
  lemma ForkWithMiddleScenario(b: Board)
    requires b.grid == [['-', '-', '-'], ['X', '-', 'X'], ['O', 'X', 'O']]
    ensures RobotChoice(b, 'O') == Ok((1, 1))
  {
    CompletionIsLineScan(b, 'O');
    CompletionIsLineScan(b, 'X');
  }

  /** Neither side can win at once on b. */
  lemma NoCompletion(b: Board)
    requires forall sign | sign == 'X' || sign == 'O' :: LineScan(b.grid, sign) == None
    ensures Completion(b, 'O') == None && Completion(b, 'X') == None
  {
    CompletionIsLineScan(b, 'O');
    CompletionIsLineScan(b, 'X');
  }

  /** On the "fork with side" board, 'O' at (0, 0) makes one threat only and at (2, 0) two. */
  lemma SideForkCells(b: Board)
    requires b.grid == [['-', 'O', '-'], ['-', 'X', 'O'], ['-', 'X', '-']]
    ensures IsEmptyAt(b.grid, (0, 0)) && !CreatesFork(b, 'O', (0, 0))
    ensures IsEmptyAt(b.grid, (2, 0)) && CreatesFork(b, 'O', (2, 0))
  {
    var atCorner := AddValue(b, (0, 0), 'O').value;
    CompletionIsLineScan(atCorner, 'O');
    CompletionIsLineScan(AddValue(atCorner, (2, 0), 'X').value, 'O');
    var atFork := AddValue(b, (2, 0), 'O').value;
    CompletionIsLineScan(atFork, 'O');
    CompletionIsLineScan(AddValue(atFork, (0, 0), 'X').value, 'O');
  }

  /** On the "fork with side" board the first fork cell of 'O' is (2, 0). */
  lemma SideFirstFork(b: Board)
    requires b.grid == [['-', 'O', '-'], ['-', 'X', 'O'], ['-', 'X', '-']]
    ensures FirstFork(b, 'O') == Some((2, 0))
  {
    SideForkCells(b);
    forall d | IsEmptyAt(b.grid, d) && RowMajor(d) < RowMajor((2, 0))
      ensures !CreatesFork(b, 'O', d)
    {
      assert d == (0, 0);
    }
    FirstForkIff(b, 'O', (2, 0));
  }

  /** Neither side can win at once, so the robot plays the first fork cell of 'O', (2, 0). */
  lemma ForkWithSideScenario(b: Board)
    requires b.grid == [['-', 'O', '-'], ['-', 'X', 'O'], ['-', 'X', '-']]
    ensures RobotChoice(b, 'O') == Ok((2, 0))
  {
    NoCompletion(b);
    SideFirstFork(b);
  }

  /** On the "blocks fork" board, 'O' at (0, 0) makes one threat only and at (2, 0) two. */
  lemma OpponentForkCells(b: Board)
    requires b.grid == [['-', 'O', '-'], ['-', '-', 'O'], ['-', 'X', '-']]
    ensures IsEmptyAt(b.grid, (0, 0)) && !CreatesFork(b, 'O', (0, 0))
    ensures IsEmptyAt(b.grid, (2, 0)) && CreatesFork(b, 'O', (2, 0))
  {
    var atCorner := AddValue(b, (0, 0), 'O').value;
    CompletionIsLineScan(atCorner, 'O');
    CompletionIsLineScan(AddValue(atCorner, (2, 0), 'X').value, 'O');
    var atFork := AddValue(b, (2, 0), 'O').value;
    CompletionIsLineScan(atFork, 'O');
    CompletionIsLineScan(AddValue(atFork, (0, 0), 'X').value, 'O');
  }

  /** On the "blocks fork" board the first fork cell of 'O' is (2, 0). */
  lemma OpponentFirstFork(b: Board)
    requires b.grid == [['-', 'O', '-'], ['-', '-', 'O'], ['-', 'X', '-']]
    ensures FirstFork(b, 'O') == Some((2, 0))
  {
    OpponentForkCells(b);
    forall d | IsEmptyAt(b.grid, d) && RowMajor(d) < RowMajor((2, 0))
      ensures !CreatesFork(b, 'O', d)
    {
      assert d == (0, 0);
    }
    FirstForkIff(b, 'O', (2, 0));
  }

  /** 'X' has one mark and cannot fork; 'O' could fork at (2, 0), so 'X' takes that cell. */
  lemma BlocksForkScenario(b: Board)
    requires b.grid == [['-', 'O', '-'], ['-', '-', 'O'], ['-', 'X', '-']]
    ensures RobotChoice(b, 'X') == Ok((2, 0))
  {
    NoCompletion(b);
    NoForkMoveWithOneMark(b, 'X');
    OpponentFirstFork(b);
  }

  /** With 'X' on two opposite corners, 'X' at (1, 0) makes one threat only and at (2, 0) two. */
  lemma OppositeCornersForkCells(b: Board)
    requires b.grid == [['X', '-', '-'], ['-', 'O', '-'], ['-', '-', 'X']]
    ensures IsEmptyAt(b.grid, (1, 0)) && !CreatesFork(b, 'X', (1, 0))
    ensures IsEmptyAt(b.grid, (2, 0)) && CreatesFork(b, 'X', (2, 0))
  {
    var atSide := AddValue(b, (1, 0), 'X').value;
    CompletionIsLineScan(atSide, 'X');
    CompletionIsLineScan(AddValue(atSide, (2, 0), 'O').value, 'X');
    var atFork := AddValue(b, (2, 0), 'X').value;
    CompletionIsLineScan(atFork, 'X');
    CompletionIsLineScan(AddValue(atFork, (1, 0), 'O').value, 'X');
  }

  /** With 'X' on two opposite corners the first fork cell of 'X' is (2, 0). */
  lemma OppositeCornersFirstFork(b: Board)
    requires b.grid == [['X', '-', '-'], ['-', 'O', '-'], ['-', '-', 'X']]
    ensures FirstFork(b, 'X') == Some((2, 0))
  {
    OppositeCornersForkCells(b);
    forall d | IsEmptyAt(b.grid, d) && RowMajor(d) < RowMajor((2, 0))
      ensures !CreatesFork(b, 'X', d)
    {
      assert d == (1, 0);
    }
    FirstForkIff(b, 'X', (2, 0));
  }

  /**
   * 'X' holds two opposite corners and could fork at (2, 0); the robot takes
   * that cell, one of the two the test accepts.
   */
  lemma PreventsForkOpportunityScenario(b: Board)
    requires b.grid == [['X', '-', '-'], ['-', 'O', '-'], ['-', '-', 'X']]
    ensures RobotChoice(b, 'O') == Ok((2, 0))
    ensures RobotChoice(b, 'O').value in {(0, 2), (2, 0)}
  {
    NoCompletion(b);
    NoForkMoveWithOneMark(b, 'O');
    OppositeCornersFirstFork(b);
  }

  /** With 'X' on (0, 0) and on the centre, 'X' forks by playing (2, 0). */
  lemma CornerAndCentreFork(b: Board)
    requires b.grid == [['X', '-', '-'], ['-', 'X', '-'], ['-', '-', '-']]
    ensures FirstFork(b, 'X').Some?
  {
    var atFork := AddValue(b, (2, 0), 'X').value;
    CompletionIsLineScan(atFork, 'X');
    CompletionIsLineScan(AddValue(atFork, (1, 0), 'O').value, 'X');
    assert IsEmptyAt(b.grid, (2, 0)) && CreatesFork(b, 'X', (2, 0));
    FirstForkLeast(b, 'X');
  }

  /** With one 'X' on a corner, the centre is a fork opportunity of 'X'. */
  lemma CornerOpportunity(b: Board)
    requires b.grid == [['X', '-', '-'], ['-', '-', '-'], ['-', '-', '-']]
    ensures IsEmptyAt(b.grid, (1, 1)) && GivesOpponentFork(b, 'O', (1, 1))
  {
    var next := AddValue(b, (1, 1), 'X').value;
    GridsEqual(next.grid, [['X', '-', '-'], ['-', 'X', '-'], ['-', '-', '-']]);
    CornerAndCentreFork(next);
  }

  /** The centre, being a fork opportunity, is the cell chosen to block one. */
  lemma CornerOpportunityChoice(b: Board)
    requires b.grid == [['X', '-', '-'], ['-', '-', '-'], ['-', '-', '-']]
    ensures BlockForkChoice(b, 'O') == Some((1, 1))
  {
    CornerOpportunity(b);
    BlockForkChoicePreference(b, 'O');
  }

  /**
   * 'X' on a corner: no win, block or fork for either side, but 'X' on the
   * centre would open a fork, so the centre is taken as a block of that
   * opportunity.
   */
  lemma TakesCenterScenario(b: Board)
    requires b.grid == [['X', '-', '-'], ['-', '-', '-'], ['-', '-', '-']]
    ensures RobotChoice(b, 'O') == Ok((1, 1))
  {
    NoCompletion(b);
    NoForkMoveWithOneMark(b, 'O');
    NoForkMoveWithOneMark(b, 'X');
    CornerOpportunityChoice(b);
  }

  /** With one 'X' on the centre, (0, 0) is a fork opportunity of 'X'. */
  lemma CentreOpportunity(b: Board)
    requires b.grid == [['-', '-', '-'], ['-', 'X', '-'], ['-', '-', '-']]
    ensures IsEmptyAt(b.grid, (0, 0)) && GivesOpponentFork(b, 'O', (0, 0))
  {
    var next := AddValue(b, (0, 0), 'X').value;
    GridsEqual(next.grid, [['X', '-', '-'], ['-', 'X', '-'], ['-', '-', '-']]);
    CornerAndCentreFork(next);
  }

  /** (0, 0) is a fork opportunity, the centre is taken and (0, 0) is the first corner: it is chosen. */
  lemma CentreOpportunityChoice(b: Board)
    requires b.grid == [['-', '-', '-'], ['-', 'X', '-'], ['-', '-', '-']]
    ensures BlockForkChoice(b, 'O') == Some((0, 0))
  {
    CentreOpportunity(b);
    assert !IsEmptyAt(b.grid, (1, 1));
    BlockForkChoiceCorner(b, 'O', (0, 0));
  }

  /**
   * 'X' on the centre: 'X' on (0, 0) would open a fork, and (0, 0) is the
   * first corner, so the robot takes it; the test accepts any corner.
   */
  lemma TakesCornerScenario(b: Board)
    requires b.grid == [['-', '-', '-'], ['-', 'X', '-'], ['-', '-', '-']]
    ensures RobotChoice(b, 'O') == Ok((0, 0))
    ensures RobotChoice(b, 'O').value in Corners
  {
    NoCompletion(b);
    NoForkMoveWithOneMark(b, 'O');
    NoForkMoveWithOneMark(b, 'X');
    CentreOpportunityChoice(b);
  }

  /** Two cells left, a side and a corner, and no rule before the corner rule applies: the corner. */
  lemma TakesCornerOfLastTwoScenario(b: Board)
    requires b.grid == [['O', 'O', 'X'], ['X', 'X', 'O'], ['O', '-', '-']]
    ensures RobotChoice(b, 'O') == Ok((2, 2))
  {
    NoCompletion(b);
    NoForkMoveWithTwoEmptyCells(b, 'O');
    NoForkMoveWithTwoEmptyCells(b, 'X');
    NoOpportunityWithTwoEmptyCells(b, 'O');
    CornerPreference(b.grid);
  }

  /** One side cell left: the side rule takes it. */
  lemma TakesLastSideScenario(b: Board)
    requires b.grid == [['O', 'O', 'X'], ['X', 'X', 'O'], ['O', '-', 'X']]
    ensures RobotChoice(b, 'O') == Ok((1, 2))
  {
    NoCompletion(b);
    NoForkMoveWithTwoEmptyCells(b, 'O');
    NoForkMoveWithTwoEmptyCells(b, 'X');
    NoOpportunityWithTwoEmptyCells(b, 'O');
    CornerPreference(b.grid);
    SidePreference(b.grid);
  }

  /** On a full board the robot finds no move. */
  lemma FullBoardScenario(b: Board)
    requires b.grid == [['X', 'O', 'X'], ['X', 'O', 'O'], ['O', 'X', 'X']]
    ensures RobotChoice(b, 'O') == Err("No choice found")
  {
    RobotErrIffFull(b, 'O');
  }
}
