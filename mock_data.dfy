/** The frontend engine (frontend/src/utils/mockData.js): copy-on-write primitives over
    board values, and the client's game state object. A board here is a value, so the
    input of every primitive is left as it was. */
module MockData {
  import opened GameModels
  import opened Rules
  import opened Lists

  /** The client's game state object: the game fields of a snapshot plus the history. */
  datatype ClientState = ClientState(
    board: Board,
    currentPlayer: int,
    gamePhase: Phase,
    round: int,
    availableDirections: seq<Direction>,
    winner: Option<int>,
    starsPlaced: int,
    gameHistory: seq<GameHistoryEntry>,
    settings: GameSettings)

  /** The state { ...snapshot, gameHistory: history }. */
  function WithHistory(snap: Snapshot, history: seq<GameHistoryEntry>): (s: ClientState)
    ensures s.board == snap.board && s.currentPlayer == snap.currentPlayer
    ensures s.gamePhase == snap.gamePhase && s.round == snap.round
    ensures s.availableDirections == snap.availableDirections && s.winner == snap.winner
    ensures s.starsPlaced == snap.starsPlaced && s.settings == snap.settings
    ensures s.gameHistory == history
  {
    ClientState(snap.board, snap.currentPlayer, snap.gamePhase, snap.round, snap.availableDirections,
                snap.winner, snap.starsPlaced, history, snap.settings)
  }

  /** createGameStateSnapshot: every game field of the state and not its history; putting
      the history back gives the state again. */
  function CreateGameStateSnapshot(s: ClientState): (snap: Snapshot)
    ensures snap.board == s.board && snap.currentPlayer == s.currentPlayer
    ensures snap.gamePhase == s.gamePhase && snap.round == s.round
    ensures snap.availableDirections == s.availableDirections && snap.winner == s.winner
    ensures snap.starsPlaced == s.starsPlaced && snap.settings == s.settings
    ensures WithHistory(snap, s.gameHistory) == s
  {
    Snapshot(s.board, s.currentPlayer, s.gamePhase, s.round, s.availableDirections,
             s.winner, s.starsPlaced, s.settings)
  }

  /** createInitialGameState(settings = defaultGameSettings): an empty board, Player 1 to
      place, round 1, the eight distinct compass tags, no winner, no stars, no history and
      the given settings (the defaults when none are given). */
  function CreateInitialGameState(settings: Option<GameSettings>): (s: ClientState)
    ensures WellFormed(s.board) && forall r, c :: InBounds(r, c) ==> s.board[r][c] == Empty
    ensures s.currentPlayer == 1 && s.gamePhase == PlacementPhase && s.round == 1
    ensures |s.availableDirections| == 8 && NoDuplicates(s.availableDirections)
    ensures forall i :: 0 <= i < 8 ==> IsCompass(s.availableDirections[i])
    ensures s.winner == None && s.starsPlaced == 0 && s.gameHistory == []
    ensures s.settings == if settings.Some? then settings.value else DefaultSettings
  {
    ClientState(DefaultBoard(), 1, PlacementPhase, 1, AllDirections, None, 0, [],
                if settings.Some? then settings.value else DefaultSettings)
  }

  /** placeStar: a new board with a star at (row, col) when that cell is empty, and the
      input board itself otherwise. There is no bounds check: a column outside the board
      reads as a non-empty cell, and a row outside it makes the lookup throw, which the
      precondition excludes. */
  function PlaceStar(board: Board, row: int, col: int): (newBoard: Board)
    requires WellFormed(board) && 0 <= row < 6
    ensures WellFormed(newBoard)
    ensures newBoard != board <==> InBounds(row, col) && board[row][col] == Empty
    ensures newBoard != board ==>
      forall i, j :: InBounds(i, j) ==> newBoard[i][j] == if i == row && j == col then Star else board[i][j]
  {
    if 0 <= col < 6 && board[row][col] == Empty then PlaceAt(board, row, col) else board
  }

  /** The while loop of applyDirection for the star at (row, col): from one step past it
      to the board edge, every cell of the copy that is still empty becomes a circle. */
  method DrawRay(board: Board, direction: Direction, row: int, col: int) returns (newBoard: Board)
    requires WellFormed(board) && IsCompass(direction) && InBounds(row, col)
    ensures WellFormed(newBoard)
    ensures forall r, c :: InBounds(r, c) ==>
      newBoard[r][c] == if board[r][c] == Empty && OnRay(direction, row, col, r, c) then Circle else board[r][c]
  {
    newBoard := board;
    var (dRow, dCol) := Vector(direction);
    var currentRow := row + dRow;
    var currentCol := col + dCol;
    ghost var k := 1;
    while 0 <= currentRow < 6 && 0 <= currentCol < 6
      invariant WellFormed(newBoard)
      invariant k >= 1
      invariant currentRow == row + Offset(k, dRow) && currentCol == col + Offset(k, dCol)
      invariant forall r, c :: InBounds(r, c) ==>
        newBoard[r][c] == if board[r][c] == Empty && OnRay(direction, row, col, r, c) && Steps(direction, row, col, r, c) < k
                          then Circle else board[r][c]
      decreases 6 - k
    {
      if newBoard[currentRow][currentCol] == Empty {
        newBoard := newBoard[currentRow := newBoard[currentRow][currentCol := Circle]];
      }
      currentRow := currentRow + dRow;
      currentCol := currentCol + dCol;
      k := k + 1;
    }
    forall r, c | InBounds(r, c) && OnRay(direction, row, col, r, c)
      ensures Steps(direction, row, col, r, c) < k
    {
      RayLeavesBoard(direction, row, col, k, r, c);
    }
  }

  /** applyDirection: a copy of the board in which, for every star of the input, each
      cell from one step past the star to the edge in the given direction that is still
      empty becomes a circle. Stars are read from the input, so the result is the
      reference fill. */
  method ApplyDirection(board: Board, direction: Direction) returns (newBoard: Board)
    requires WellFormed(board) && IsCompass(direction)
    ensures newBoard == Fill(board, direction)
  {
    newBoard := board;
    for row := 0 to 6
      invariant WellFormed(newBoard)
      invariant forall r, c :: InBounds(r, c) ==> newBoard[r][c] == PartialFill(board, direction, row * 6, r, c)
    {
      for col := 0 to 6
        invariant WellFormed(newBoard)
        invariant forall r, c :: InBounds(r, c) ==> newBoard[r][c] == PartialFill(board, direction, row * 6 + col, r, c)
      {
        PartialFillStep(board, direction, row, col);
        if board[row][col] == Star {
          newBoard := DrawRay(newBoard, direction, row, col);
        }
      }
    }
    BoardsEqual(newBoard, Fill(board, direction));
  }

  /** The value checkWinner returns: the winner and the count of empty cells, both null
      while the game is still running. */
  datatype WinnerResult = WinnerResult(winner: Option<int>, emptyCount: Option<int>)

  /** checkWinner: {winner: null, emptyCount: null} exactly while round <= numberOfRounds;
      after that the number of empty cells and the winner the winner rule gives for it. */
  method CheckWinner(board: Board, round: int, settings: GameSettings) returns (result: WinnerResult)
    requires WellFormed(board)
    ensures result == WinnerResult(None, None) <==> round <= settings.numberOfRounds
    ensures result.winner == Winner(board, round, settings)
    ensures round > settings.numberOfRounds ==> result.emptyCount == Some(Count(board, Empty))
  {
    if round > settings.numberOfRounds {
      var emptyCount := 0;
      for row := 0 to 6
        invariant emptyCount == Count(board[..row], Empty)
      {
        for col := 0 to 6
          invariant emptyCount == Count(board[..row], Empty) + CountRow(board[row][..col], Empty)
        {
          assert board[row][..col + 1][..col] == board[row][..col];
          if board[row][col] == Empty {
            emptyCount := emptyCount + 1;
          }
        }
        assert board[..row + 1][..row] == board[..row];
        assert board[row][..6] == board[row];
      }
      assert board[..6] == board;
      if emptyCount >= settings.emptySquaresToWin {
        return WinnerResult(Some(1), Some(emptyCount));
      } else {
        return WinnerResult(Some(2), Some(emptyCount));
      }
    }
    return WinnerResult(None, None);
  }

  /** countStars: the number of 'star' cells, between 0 and 36. */
  method CountStars(board: Board) returns (count: int)
    requires WellFormed(board)
    ensures count == Count(board, Star) && 0 <= count <= 36
  {
    count := 0;
    for row := 0 to 6
      invariant count == Count(board[..row], Star)
    {
      for col := 0 to 6
        invariant count == Count(board[..row], Star) + CountRow(board[row][..col], Star)
      {
        assert board[row][..col + 1][..col] == board[row][..col];
        if board[row][col] == Star {
          count := count + 1;
        }
      }
      assert board[..row + 1][..row] == board[..row];
      assert board[row][..6] == board[row];
    }
    assert board[..6] == board;
    CountPartition(board);
  }

  /** countEmptySquares: the number of 'empty' cells, between 0 and 36. */
  method CountEmptySquares(board: Board) returns (count: int)
    requires WellFormed(board)
    ensures count == Count(board, Empty) && 0 <= count <= 36
  {
    count := 0;
    for row := 0 to 6
      invariant count == Count(board[..row], Empty)
    {
      for col := 0 to 6
        invariant count == Count(board[..row], Empty) + CountRow(board[row][..col], Empty)
      {
        assert board[row][..col + 1][..col] == board[row][..col];
        if board[row][col] == Empty {
          count := count + 1;
        }
      }
      assert board[..row + 1][..row] == board[..row];
      assert board[row][..6] == board[row];
    }
    assert board[..6] == board;
    CountPartition(board);
  }
}
