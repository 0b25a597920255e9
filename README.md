# Tic-tac-toe with a heuristic robot, modelled in Dafny

This project models the core of a small Rust tic-tac-toe game. Two players take turns
placing their signs ('O' and 'X') on a 3x3 board. A game is won by a row, a column or a
diagonal of one sign. The robot opponent picks its move with eight rules tried in a fixed
order: win, block, fork, block the opponent's fork, block a fork opportunity, centre,
corner, side.

The model has six modules: `Wrappers` (`wrappers.dfy`) holds the `Option` and `Result`
datatypes, and the other five follow the source files, with one more for the robot's tests:

- `Boards` (`boards.dfy`) models `src/board.rs`: the board value, `Board::new`,
  `transpose`, `transpose_grid` and `add_value` with its two errors.
- `WinCondition` (`win_condition.dfy`) models `src/win_condition.rs`: `is_winning_grid`
  and its helpers. It also gives the reference definition of the eight lines of the grid
  (`Line`, `Filled`, `ThreeInARow`), which the rest of the model states its properties against.
- `RobotPlayer` (`robot_player.dfy`) models `src/robot_player.rs`. Each function that loops
  in Rust (`get_empty_squares`, the row and diagonal scans, `fork_move`,
  `take_corner_move`, `take_side_move`, `block_fork_opportunity_move`, `winning_move`) is a
  method with a loop. `get_robot_coordinate`, a chain of `if let` tests, is a method that
  calls these in turn, and the column scan, a single call of the row scan on the transposed
  board, is the function `ColumnThreat`. Each such method is proved equal to a
  specification function. That function is then proved against independent reference
  definitions:
  - a *threat*: a line with two cells of a sign and one empty cell;
  - a *fork*: two different cells that each complete a line;
  - the least cell in row-major order.
- `RobotScenarios` (`robot_scenarios.dfy`) holds the boards of the robot's unit tests, each
  with the move the model proves the robot chooses there, and one added board, the full
  board, on which the robot finds no move.
- `TicTacToe` (`tic_tac_toe.dfy`) models the state part of `src/main.rs`:
  `is_full_board`, `Game::new`, `next_turn`, the two branches of `place_choice`, and
  `get_final_message`. It also has an invariant of a game played from `Game::new`: the
  marks alternate, and the game is over exactly when the board is winning or full.

Every `unwrap` of an `add_value` result in the robot is on a cell the scan found empty. The
model reads each one as the `value` of an `Ok` result, so the verifier proves that none of
them can panic.

Coordinates are `(x, y)` pairs of unbounded naturals (Rust's `usize`), and the grid is
indexed `grid[y][x]`. The empty cell is `'-'`.

Where the description of the system and the code disagree, the model follows the code:

- Corner order. The corner rule (`take_corner_move`, and the corner step of
  `block_fork_opportunity_move`) tests each cell of the row-major list of empty squares for
  membership in the corner set. The corner it returns is therefore the first in row-major
  order: (0, 0), (2, 0), (0, 2), (2, 2). That is not the listed order (0, 0), (0, 2), (2, 0),
  (2, 2). `RobotPlayer.CornerPreference` states the order the code has. Sides work the
  same way (`RobotPlayer.SidePreference`).
- Forks. A fork is described as a move that creates two or more winning moves. The code
  checks something different: after the opponent takes the first winning cell the scan
  finds, `two_winning_moves` asks whether a winning move remains.
  `RobotPlayer.TwoWinningMovesIff` proves the two agree for a real sign.
- `is_winning_board`. `src/main.rs` imports `is_winning_board(Board)`, but
  `src/win_condition.rs` only defines `is_winning_grid`. The model reads the former as the
  latter applied to the board's grid (`TicTacToe.IsWinningBoard`).

## Model

| member | source | states |
|---|---|---|
| Boards.New | src/board.rs:11-15 | every cell of the new board is empty |
| Boards.Transpose | src/board.rs:17-21 | cell (i, j) of the result is cell (j, i) of the board |
| Boards.TransposeTwice | src/board.rs:17-21 | transposing twice gives the board back |
| Boards.TransposeGrid | src/board.rs:38-47 | the nested loops fill every cell (i, j) with cell (j, i) of the input, i.e. the transpose |
| Boards.AddValue | src/board.rs:23-35 | out of bounds is refused first, then an occupied cell; it succeeds exactly on an empty cell in bounds; on success the cell holds the sign, whatever character it is, and every other cell is unchanged |
| Boards.PlaceSetsOneCell | src/board.rs:32-33 | the write of add_value (`Place`) puts the sign in the chosen cell and leaves the other eight cells as they were |
| Boards.ErrorMessagesDistinct | src/board.rs:25-30 | the two error texts of add_value (`BoardError.Message`) are different, so the text tells the error |
| Boards.AddValueIsPlace | src/board.rs:32-34 | a successful add_value is the board with the one cell replaced |
| Boards.OccurrencesAfterPlace | src/board.rs:32-34 | placing a mark on an empty cell adds one to the count of that mark and removes one empty cell, leaving other signs' counts unchanged |
| WinCondition.UniqueNonEmptyRow | src/win_condition.rs:20-26 | one distinct element with a non-empty first cell means: non-empty, constant, and not '-' |
| WinCondition.TransposeBoard | src/win_condition.rs:33-43 | the loops produce the transpose of the grid |
| WinCondition.IsDiagonalWin | src/win_condition.rs:9-18 | the loop-built diagonals win exactly when one diagonal holds three equal signs other than '-' |
| WinCondition.WinningGridFillsLine | src/win_condition.rs:5-7 | a grid is_winning_grid accepts has a row, column or diagonal filled with one real sign |
| WinCondition.FilledLineWins | src/win_condition.rs:5-7 | a row, column or diagonal filled with one real sign makes is_winning_grid true |
| WinCondition.RowWinIff | src/win_condition.rs:45-50 | is_row_win (`IsRowWin`) holds exactly when some row is filled with one real sign |
| WinCondition.ColumnWinIff | src/win_condition.rs:28-31 | is_column_win (`IsColumnWin`) holds exactly when some column is filled with one real sign |
| WinCondition.DiagonalWinIff | src/win_condition.rs:9-18 | the value is_diagonal_win computes (`DiagonalWin`) holds exactly when one of the two diagonals is filled with one real sign |
| WinCondition.WinningGridIff | src/win_condition.rs:5-7 | is_winning_grid (`IsWinningGrid`) holds exactly when some row, column or diagonal is filled with one real sign (both directions) |
| WinCondition.EmptyGridNotWinning | src/win_condition.rs:56-59 | the empty grid is not winning |
| WinCondition.SourceWinningGrids | src/win_condition.rs:61-85 | the full-row, diagonal and full-column test grids are winning |
| WinCondition.SourceMixedGrids | src/win_condition.rs:87-115 | the test grids whose lines mix 'O' and 'X' are not winning |
| RobotPlayer.Opponent | src/robot_player.rs:4 | the opponent sign is never the sign itself and never '-' |
| RobotPlayer.EmptySquares | src/robot_player.rs:135-146 | the list holds exactly the empty cells, in strictly increasing row-major order |
| RobotPlayer.GetEmptySquares | src/robot_player.rs:135-146 | the nested loops push exactly the empty cells, rows outer and columns inner |
| RobotPlayer.FirstInIsLeast | src/robot_player.rs:52-56 | scanning a row-major list for the first target finds the least target in row-major order |
| RobotPlayer.TakeCenterMove | src/robot_player.rs:41-47 | proposes (1, 1) exactly when the centre is empty |
| RobotPlayer.FirstEmptyCorner | src/robot_player.rs:49-59 | an empty corner, or nothing only when no corner is empty |
| RobotPlayer.CornerPreference | src/robot_player.rs:49-59 | the corner taken is the first empty one of (0, 0), (2, 0), (0, 2), (2, 2) |
| RobotPlayer.TakeCornerMove | src/robot_player.rs:49-59 | the loop with early return computes the first empty corner |
| RobotPlayer.FirstEmptySide | src/robot_player.rs:61-71 | an empty side cell, or nothing only when no side cell is empty |
| RobotPlayer.SidePreference | src/robot_player.rs:61-71 | the side taken is the first empty one of (1, 0), (0, 1), (2, 1), (1, 2) |
| RobotPlayer.TakeSideMove | src/robot_player.rs:61-71 | the loop with early return computes the first empty side cell |
| RobotPlayer.FirstEmpty | src/robot_player.rs:166 | the index of the first '-' of a line, or nothing when the line has none |
| RobotPlayer.Count3 | src/robot_player.rs:168 | the filter-and-count of a three-cell line (`Count`) is the number of its cells holding the sign |
| RobotPlayer.CompletingIndex | src/robot_player.rs:166-168 | the index the line test yields is that of an empty cell of the line |
| RobotPlayer.CompletingIndexIff | src/robot_player.rs:166-169 | for a real sign, a line's test yields index k exactly when cell k is empty and the other two hold the sign |
| RobotPlayer.RowThreat | src/robot_player.rs:164-173 | the cell found is empty, completes its row, and no earlier row has a completing cell; nothing only when no row has one |
| RobotPlayer.GetWinningRowCoordinate | src/robot_player.rs:164-173 | the row loop with early return computes that cell |
| RobotPlayer.ColumnThreat | src/robot_player.rs:175-182 | the row scan of the transposed board, swapped back, finds an empty cell completing its column; nothing only when no column has one |
| RobotPlayer.DiagonalThreat | src/robot_player.rs:184-205 | the cell found is empty and completes a diagonal, the main diagonal first; nothing only when neither diagonal has one |
| RobotPlayer.GetWinningDiagonalCoordinate | src/robot_player.rs:184-205 | the loop-built diagonals and the two tests compute that cell |
| RobotPlayer.Completion | src/robot_player.rs:148-162 | the winning move is an empty cell that completes a line; nothing only when no line has a completing cell |
| RobotPlayer.WinningMove | src/robot_player.rs:148-162 | the loop over the three scan functions returns the first hit, which is that cell |
| RobotPlayer.CompletionIff | src/robot_player.rs:148-162 | a winning move is found exactly when some empty cell completes a line |
| RobotPlayer.CompletionWins | src/robot_player.rs:148-162 | playing the winning move is accepted by add_value and makes the grid winning |
| RobotPlayer.CompletionIsLineScan | src/robot_player.rs:148-205 | the winning move is the first completing cell of rows 0-2, then columns 0-2, then (e, e), then (2 - e, e) |
| RobotPlayer.TwoWinningMovesIff | src/robot_player.rs:123-133 | of two_winning_moves (`TwoWinningMoves`): for a real sign, a winning move surviving the opponent's block of the first one means two different cells each complete a line, and conversely |
| RobotPlayer.CreatesForkIff | src/robot_player.rs:113-116 | a candidate cell passes fork_move's test (`CreatesFork`) exactly when the grid with the sign there has a fork |
| RobotPlayer.FirstFork | src/robot_player.rs:110-121 | a cell found is empty and passes the fork test |
| RobotPlayer.FirstForkLeast | src/robot_player.rs:110-121 | nothing is found only when no empty cell passes; the cell found comes first in row-major order among those that pass |
| RobotPlayer.FirstForkIff | src/robot_player.rs:110-121 | fork_move returns c exactly when c is empty, passes, and no earlier empty cell passes |
| RobotPlayer.ForkMove | src/robot_player.rs:110-121 | the loop with early return computes that cell |
| RobotPlayer.ForkNeedsThreeMarks | src/robot_player.rs:123-133 | when all cells of a real sign are among two given cells, the sign has no two different completing cells |
| RobotPlayer.ForkNeedsTwoEmptyCells | src/robot_player.rs:123-133 | with a single empty cell a sign has no two different completing cells |
| RobotPlayer.NoForkMoveWithOneMark | src/robot_player.rs:110-133 | with at most one cell of a real sign on the board, that sign has no fork move |
| RobotPlayer.NoForkMoveWithTwoEmptyCells | src/robot_player.rs:110-133 | with at most two empty cells there is no fork move |
| RobotPlayer.OpportunityCellsIff | src/robot_player.rs:78-83 | the collected cells are exactly the empty cells where the opponent, having played there, would have a fork move |
| RobotPlayer.InOpportunityCells | src/robot_player.rs:78-83 | an empty cell passes the test of lines 79-80 (`GivesOpponentFork`) exactly when the opponent's fork_move finds a cell after the opponent plays there |
| RobotPlayer.ChoiceAmong | src/robot_player.rs:85-107 | nothing exactly when there are no opportunities; otherwise one of them |
| RobotPlayer.BlockForkChoice | src/robot_player.rs:73-108 | a cell proposed is empty and is a fork opportunity of the opponent |
| RobotPlayer.BlockForkChoiceNone | src/robot_player.rs:73-108 | nothing is proposed exactly when the opponent has no fork opportunity |
| RobotPlayer.BlockForkChoicePreference | src/robot_player.rs:92-106 | the centre is preferred, then the row-major least corner opportunity, then the row-major least opportunity |
| RobotPlayer.BlockForkChoiceCorner | src/robot_player.rs:92-104 | with the centre not an opportunity, the first corner opportunity in row-major order is chosen |
| RobotPlayer.NoOpportunityWithoutOpponentMarks | src/robot_player.rs:73-108 | without any mark of the opponent there is no fork opportunity |
| RobotPlayer.NoOpportunityWithTwoEmptyCells | src/robot_player.rs:73-108 | with at most two empty cells there is no fork opportunity |
| RobotPlayer.CollectOpportunities | src/robot_player.rs:74-83 | the loop pushes exactly the opportunity cells, in row-major order |
| RobotPlayer.ChooseOpportunity | src/robot_player.rs:85-107 | the centre loop, the corner loop and the final `[0]` compute the choice among the collected opportunities |
| RobotPlayer.BlockForkOpportunityMove | src/robot_player.rs:73-108 | collecting then choosing computes the block-fork-opportunity cell |
| RobotPlayer.RobotChoice | src/robot_player.rs:3-39 | any cell chosen is empty and add_value accepts the robot's sign there; the only error is "No choice found" |
| RobotPlayer.GetRobotCoordinate | src/robot_player.rs:3-39 | the chain of rules in priority order computes that choice; a chosen cell is in bounds and empty |
| RobotPlayer.RobotErrIffFull | src/robot_player.rs:3-39 | the robot finds no move exactly when the board has no empty cell |
| RobotPlayer.RobotTakesWin | src/robot_player.rs:6-8 | when the sign can complete a line, the robot completes one and the grid becomes winning |
| RobotPlayer.RobotBlocks | src/robot_player.rs:10-12 | otherwise, when the opponent can complete a line, the robot takes a cell that completes one of the opponent's lines |
| RobotPlayer.RobotForks | src/robot_player.rs:14-16 | with no win or block available, a fork for the sign is taken, and it is the row-major first one |
| RobotPlayer.RobotBlocksFork | src/robot_player.rs:18-20 | with no win, block or own fork, a cell where the opponent would fork is taken |
| RobotScenarios.EmptyBoardNoTwoWinningMoves | src/robot_player.rs:211-215 | two_winning_moves is false on the empty board |
| RobotScenarios.SimpleForkTwoWinningMoves | src/robot_player.rs:217-221 | two_winning_moves is true on the simple fork board |
| RobotScenarios.SingleThreatNoTwoWinningMoves | src/robot_player.rs:223-227 | two_winning_moves is false with a single threat |
| RobotScenarios.WinsRowScenario | src/robot_player.rs:229-234 | the robot completes the row at (1, 1) |
| RobotScenarios.WinsColumnScenario | src/robot_player.rs:236-241 | the robot completes the column at (0, 2) |
| RobotScenarios.WinsDiagonalScenario | src/robot_player.rs:243-248 | the robot completes the diagonal at (2, 2) |
| RobotScenarios.BlocksRowScenario | src/robot_player.rs:250-255 | the robot blocks the row at (0, 0) |
| RobotScenarios.BlocksColumnScenario | src/robot_player.rs:257-262 | the robot blocks the column at (2, 2) |
| RobotScenarios.BlocksDiagonalScenario | src/robot_player.rs:264-269 | the robot blocks the anti-diagonal at (0, 2) |
| RobotScenarios.ForkWithMiddleScenario | src/robot_player.rs:271-276 | the robot plays (1, 1), which is a block here, before any fork |
| RobotScenarios.ForkWithSideScenario | src/robot_player.rs:278-283 | the robot forks at (2, 0) |
| RobotScenarios.BlocksForkScenario | src/robot_player.rs:285-290 | the robot playing 'X' takes (2, 0), the cell where 'O' would fork |
| RobotScenarios.PreventsForkOpportunityScenario | src/robot_player.rs:292-298 | the robot takes (2, 0), one of the two cells the test accepts |
| RobotScenarios.TakesCenterScenario | src/robot_player.rs:300-305 | the robot takes the centre, as the block of a fork opportunity |
| RobotScenarios.TakesCornerScenario | src/robot_player.rs:307-313 | the robot takes the corner (0, 0), which is a corner as the test requires |
| RobotScenarios.TakesCornerOfLastTwoScenario | src/robot_player.rs:315-321 | with a corner and a side left, the robot takes the corner (2, 2) |
| RobotScenarios.TakesLastSideScenario | src/robot_player.rs:323-329 | with one side cell left, the robot takes (1, 2) |
| RobotScenarios.FullBoardScenario | src/robot_player.rs:38 | an added board, not one of the source's tests: on a full board the robot answers "No choice found" |
| TicTacToe.IsWinningBoard | src/main.rs:11 | a board is winning exactly when some line is filled with one real sign |
| TicTacToe.FlatCells | src/main.rs:113-117 | the collected cells are the nine cells of the grid row after row: cell 3y + x is grid[y][x] |
| TicTacToe.IsFullBoard | src/main.rs:112-119 | the board is full exactly when no cell is '-' |
| TicTacToe.NewGame | src/main.rs:38-49 | a new game has an empty board, the first player to move, and is not over |
| TicTacToe.OtherPlayer | src/main.rs:56-60 | the next player is one of the two, and another than the current one when the signs differ |
| TicTacToe.NextTurn | src/main.rs:51-62 | board and players are kept, the game is over exactly when the board is winning or full, and the turn passes |
| TicTacToe.NextTurnAlternates | src/main.rs:56-60 | with two distinct players, next_turn changes the current player and a second one changes it back |
| TicTacToe.NextTurnSwitchesCurrentPlayer | src/main.rs:225-242 | on a new game of 'O' and 'X', next_turn changes the current player |
| TicTacToe.PlaceChoice | src/main.rs:82-96 | accepted exactly on an empty cell; then the mover's sign is on the cell, the turn passes, and the game is over exactly when the new board is winning or full; otherwise add_value's error |
| TicTacToe.NewGameIsValid | src/main.rs:38-49 | a new game satisfies the turn invariant |
| TicTacToe.PlaceChoiceKeepsValid | src/main.rs:82-96 | an accepted choice keeps the turn invariant: the first player has as many marks as the second on its turn, one more otherwise |
| TicTacToe.FinalMessage | src/main.rs:98-109 | on a winning board the sign other than the current one is named the winner; otherwise a tie |
| TicTacToe.WinningMoveIsMovers | src/main.rs:83-86 | a move that makes a non-winning board winning fills a line with the mover's sign and no line with any other sign |
| TicTacToe.FinalMessageNamesWinner | src/main.rs:98-109 | after a winning move in an 'O' against 'X' game, the message names the player who made it, whose sign alone fills a line |
| TicTacToe.TieOnlyWhenFull | src/main.rs:98-109 | a game that ends without a win ends on a full board, with the tie message |
| TicTacToe.RobotMoveAccepted | src/main.rs:69-70 | while a valid game runs, the robot proposes a cell and place_choice accepts it |
| TicTacToe.FullBoardIsFull | src/main.rs:130-136 | a board of 'X' is full |
| TicTacToe.EmptyBoardIsNotFull | src/main.rs:138-144 | the empty board is not full |
| TicTacToe.PartlyFilledBoardIsNotFull | src/main.rs:146-152 | a partly filled board is not full |
| TicTacToe.AddValueTests | src/main.rs:154-204 | add_value writes any sign at (0, 0) of a new board; (3, 3) is out of bounds; an occupied cell is taken |

## Left out

- `Game::play` and `print_error_and_play` (src/main.rs:64-80) are left out. They print, ask a player's callback for a coordinate, and recurse on the answer without a bound. The model has the state changes they compose: `PlaceChoice`, `NextTurn`, `FinalMessage`, and the robot's choice.
- When `place_choice` fails, the source prints the error and plays on from the same game. The model returns the error, and the unchanged game is the caller's.
- The printing in `place_choice` and the `fmt::Display` layout of a board (src/board.rs:49-80) are left out: they are terminal output only.
- `src/user_input.rs` is not part of this model. It reads standard input and is not a pure function of the board.
- `tic_tac_toe/src/main.rs` is an early scaffold that only prints. It is not part of this model.
- `Player`'s coordinate callback (src/players.rs:6) is left out, since a function pointer has no counterpart in a datatype compared for equality. A player is its sign, and equality of players is equality of signs, as in src/players.rs:10-12.
- `itertools::unique` is not modelled as a library. `UniqueNonEmptyRow` counts the distinct signs of the line as a set.
- Rust's `String` errors of `add_value` are the two-valued `BoardError`. `BoardError.Message` gives the two texts.
- `add_value` clones the board and then writes one cell of the copy. It is modelled as a function that returns the grid with that cell replaced, since the original board is never changed.
- Each robot test lemma in `RobotScenarios` is stated for every board whose grid equals the test's grid, rather than for the grid literal itself. The two statements are the same.
- RobotPlayer.CompletionIsLineScan: stated for a real sign only. With the sign '-', the scan is modelled by `Completion` but is not compared with the written-out scan.
