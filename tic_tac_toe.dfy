/**
 * The turn bookkeeping of the game (src/main.rs): the game state, the
 * full-board test, starting a game, passing the turn, placing a chosen cell
 * and the final message. The interactive loop that prints and asks the
 * players for coordinates is not modelled; the state changes it composes are.
 */
module TicTacToe {
  import opened Wrappers
  import opened Boards
  import opened WinCondition
  import opened RobotPlayer

  /**
   * A player as the game sees it: its sign. Players compare by sign alone,
   * so datatype equality is the game's equality of players.
   */
  datatype Player = Player(sign: char)

  /** The state of a game: a value, rebuilt rather than updated by each turn. */
  datatype Game = Game(board: Board, players: (Player, Player), currentPlayer: Player, isOver: bool)

  /** is_winning_board: is_winning_grid on the board's grid, that is, some line filled with one real sign. */
  function IsWinningBoard(board: Board): (win: bool)
    ensures win <==> exists sign :: ThreeInARow(board.grid, sign)
  {
    WinningGridIff(board.grid);
    IsWinningGrid(board.grid)
  }

  /** The nine cells row after row, as the flat_map over the rows collects them. */
  function FlatCells(g: Grid): (cells: seq<char>)
    ensures |cells| == 9
    ensures forall y, x | 0 <= y < 3 && 0 <= x < 3 :: cells[3 * y + x] == g[y][x]
  {
    g[0] + g[1] + g[2]
  }

  /** is_full_board: no collected cell is '-', exactly when the board has no empty cell. */
  function IsFullBoard(board: Board): (full: bool)
    ensures full <==> NoEmptyCell(board.grid)
  {
    var cells := FlatCells(board.grid);
    assert forall i | 0 <= i < 9 :: cells[i] == board.grid[i / 3][i % 3];
    Empty !in cells
  }

  /** Game::new: the empty board, the first of the two players to move, the game running. */
  function NewGame(players: (Player, Player)): (game: Game)
    ensures forall y, x | 0 <= y < 3 && 0 <= x < 3 :: game.board.grid[y][x] == Empty
    ensures game.players == players && game.currentPlayer == players.0 && !game.isOver
  {
    Game(New(), players, players.0, false)
  }

  /** The player that moves after current: the second player after the first, the first after anyone else. */
  function OtherPlayer(players: (Player, Player), current: Player): (other: Player)
    ensures other == players.0 || other == players.1
    ensures players.0 != players.1 && (current == players.0 || current == players.1) ==> other != current
  {
    if current == players.0 then players.1 else players.0
  }

  /**
   * next_turn: the same board and players, the game over when the board is
   * winning or full, and the turn passed to the other player.
   */
  function NextTurn(game: Game): (next: Game)
    ensures next.board == game.board && next.players == game.players
    ensures next.isOver <==> (exists sign :: ThreeInARow(game.board.grid, sign)) || NoEmptyCell(game.board.grid)
    ensures next.currentPlayer == OtherPlayer(game.players, game.currentPlayer)
  {
    Game(game.board, game.players, OtherPlayer(game.players, game.currentPlayer),
         IsWinningBoard(game.board) || IsFullBoard(game.board))
  }

  /**
   * place_choice, its state part: when add_value accepts the cell, the game
   * with the new board after next_turn; otherwise add_value's error, and the
   * game goes on from the state it was in.
   */
  function PlaceChoice(game: Game, coordinate: Coord): (r: Result<Game, BoardError>)
    ensures r.Ok? <==> IsEmptyAt(game.board.grid, coordinate)
    ensures r.Err? ==> r.error == AddValue(game.board, coordinate, game.currentPlayer.sign).error
    ensures r.Ok? ==> r.value.board.grid == Place(game.board.grid, coordinate, game.currentPlayer.sign)
    ensures r.Ok? ==> r.value.players == game.players
    ensures r.Ok? ==> r.value.currentPlayer == OtherPlayer(game.players, game.currentPlayer)
    ensures r.Ok? ==> (r.value.isOver <==> IsWinningBoard(r.value.board) || NoEmptyCell(r.value.board.grid))
  {
    match AddValue(game.board, coordinate, game.currentPlayer.sign)
    case Ok(board) => Ok(NextTurn(game.(board := board)))
    case Err(e) => Err(e)
  }

  /**
   * get_final_message: on a winning board the winner is named as the sign
   * other than the current player's, taking 'O' and 'X' as the two signs;
   * otherwise a tie.
   */
  function FinalMessage(game: Game): (message: string)
    ensures IsWinningBoard(game.board) && game.currentPlayer.sign == 'O' ==> message == "Player X won!"
    ensures IsWinningBoard(game.board) && game.currentPlayer.sign != 'O' ==> message == "Player O won!"
    ensures !IsWinningBoard(game.board) ==> message == "It's a tie!"
  {
    if IsWinningBoard(game.board) then
      var winner := if game.currentPlayer.sign == 'O' then 'X' else 'O';
      "Player " + [winner] + " won!"
    else
      "It's a tie!"
  }

  // ---------------------------------------------------------------------------
  // Turns
  // ---------------------------------------------------------------------------

  /** Two players with distinct real signs, the current one of them. */
  predicate ValidPlayers(game: Game) {
    && game.players.0.sign != game.players.1.sign
    && game.players.0.sign != Empty && game.players.1.sign != Empty
    && (game.currentPlayer == game.players.0 || game.currentPlayer == game.players.1)
  }

  /**
   * The invariant of a game played from Game::new: the first player has
   * moved as often as the second when it is the first player's turn, once
   * more otherwise, and the game is over exactly when the board is winning
   * or full.
   */
  predicate ValidGame(game: Game) {
    var first := Occurrences(game.board.grid, game.players.0.sign);
    var second := Occurrences(game.board.grid, game.players.1.sign);
    && ValidPlayers(game)
    && (game.currentPlayer == game.players.0 ==> first == second)
    && (game.currentPlayer == game.players.1 ==> first == second + 1)
    && (game.isOver <==> IsWinningBoard(game.board) || NoEmptyCell(game.board.grid))
  }

  /** next_turn passes the turn to the other player, and a second next_turn passes it back. */
  lemma NextTurnAlternates(game: Game)
    requires ValidPlayers(game)
    ensures NextTurn(game).currentPlayer != game.currentPlayer
    ensures NextTurn(NextTurn(game)).currentPlayer == game.currentPlayer
  {
  }

  /** The next_turn test: on a new game of 'O' and 'X', the current player changes. */
  lemma NextTurnSwitchesCurrentPlayer()
    ensures NextTurn(NewGame((Player('O'), Player('X')))).currentPlayer !=
            NewGame((Player('O'), Player('X'))).currentPlayer
  {
  }

  /** A new game of two players with distinct real signs satisfies the invariant. */
  lemma NewGameIsValid(players: (Player, Player))
    requires players.0.sign != players.1.sign && players.0.sign != Empty && players.1.sign != Empty
    ensures ValidGame(NewGame(players))
  {
    var g := NewGame(players).board.grid;
    assert Occurrences(g, players.0.sign) == 0 && Occurrences(g, players.1.sign) == 0;
    assert g[0][0] == Empty;
    EmptyGridNotWinning();
  }

  /** An accepted choice keeps the invariant: one more mark of the mover, the turn passed on. */
  lemma PlaceChoiceKeepsValid(game: Game, coordinate: Coord)
    requires ValidGame(game) && PlaceChoice(game, coordinate).Ok?
    ensures ValidGame(PlaceChoice(game, coordinate).value)
  {
    var mover := game.currentPlayer.sign;
    OccurrencesAfterPlace(game.board.grid, coordinate, mover, game.players.0.sign);
    OccurrencesAfterPlace(game.board.grid, coordinate, mover, game.players.1.sign);
  }

  /**
   * A move on a board that was not winning, if it makes the board winning,
   * fills a line with the mover's sign and with no other sign.
   */
  lemma WinningMoveIsMovers(g: Grid, c: Coord, mover: char)
    requires mover != Empty && IsEmptyAt(g, c) && !IsWinningGrid(g)
    requires IsWinningGrid(Place(g, c, mover))
    ensures ThreeInARow(Place(g, c, mover), mover)
    ensures forall sign | sign != mover :: !ThreeInARow(Place(g, c, mover), sign)
  {
    var h := Place(g, c, mover);
    WinningGridIff(g);
    WinningGridIff(h);
    forall sign, l | ValidLine(l) && Filled(h, l, sign) && sign != Empty
      ensures sign == mover && c in Cells(l)
    {
      if c in Cells(l) {
        assert At(h, c) == mover;
      } else {
        assert forall d | d in Cells(l) :: At(g, d) == At(h, d);
        FilledLineWins(g, l, sign);
        assert false;
      }
    }
  }

  /**
   * Once a move of a valid game between 'O' and 'X' wins, the final message
   * names the player that made it, and that player's sign, alone, fills a line.
   */
  lemma FinalMessageNamesWinner(game: Game, coordinate: Coord)
    requires ValidGame(game) && !game.isOver
    requires {game.players.0.sign, game.players.1.sign} == {'O', 'X'}
    requires PlaceChoice(game, coordinate).Ok?
    requires IsWinningBoard(PlaceChoice(game, coordinate).value.board)
    ensures FinalMessage(PlaceChoice(game, coordinate).value) == "Player " + [game.currentPlayer.sign] + " won!"
    ensures ThreeInARow(PlaceChoice(game, coordinate).value.board.grid, game.currentPlayer.sign)
    ensures forall sign | sign != game.currentPlayer.sign ::
              !ThreeInARow(PlaceChoice(game, coordinate).value.board.grid, sign)
  {
    var next := PlaceChoice(game, coordinate).value;
    assert game.players.0.sign in {'O', 'X'} && game.players.1.sign in {'O', 'X'};
    WinningMoveIsMovers(game.board.grid, coordinate, game.currentPlayer.sign);
  }

  /** A game that ends without a winner ends on a full board, with the tie message. */
  lemma TieOnlyWhenFull(game: Game)
    requires ValidGame(game) && game.isOver && !IsWinningBoard(game.board)
    ensures NoEmptyCell(game.board.grid)
    ensures FinalMessage(game) == "It's a tie!"
  {
  }

  /**
   * While a valid game is running, the robot, playing the current player's
   * sign, proposes a cell and place_choice accepts it.
   */
  lemma RobotMoveAccepted(game: Game)
    requires ValidGame(game) && !game.isOver
    ensures RobotChoice(game.board, game.currentPlayer.sign).Ok?
    ensures PlaceChoice(game, RobotChoice(game.board, game.currentPlayer.sign).value).Ok?
  {
    RobotErrIffFull(game.board, game.currentPlayer.sign);
  }

  // ---------------------------------------------------------------------------
  // The module's own tests
  // ---------------------------------------------------------------------------

  /** is_full_board is true on a board of 'X'. */
  lemma FullBoardIsFull(b: Board)
    requires b.grid == [['X', 'X', 'X'], ['X', 'X', 'X'], ['X', 'X', 'X']]
    ensures IsFullBoard(b)
  {
  }

  /** is_full_board is false on the empty board. */
  lemma EmptyBoardIsNotFull(b: Board)
    requires b.grid == [['-', '-', '-'], ['-', '-', '-'], ['-', '-', '-']]
    ensures !IsFullBoard(b)
  {
    assert b.grid[0][0] == Empty;
  }

  /** is_full_board is false on a partly filled board. */
  lemma PartlyFilledBoardIsNotFull(b: Board)
    requires b.grid == [['-', 'X', 'O'], ['-', '-', '-'], ['O', '-', 'X']]
    ensures !IsFullBoard(b)
  {
    assert b.grid[0][0] == Empty;
  }

  /**
   * add_value on the new board puts any sign, 'X' or 'A' alike, at (0, 0);
   * (3, 3) is refused as out of bounds and a taken cell as already taken.
   */
  lemma AddValueTests(sign: char)
    ensures AddValue(New(), (0, 0), sign).Ok? && AddValue(New(), (0, 0), sign).value.grid[0][0] == sign
    ensures AddValue(New(), (3, 3), sign) == Err(OutOfBounds)
    ensures forall b: Board | b.grid[0] == ['X', 'X', 'X'] :: AddValue(b, (0, 0), sign) == Err(AlreadyTaken)
  {
  }
}
