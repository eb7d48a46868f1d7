/** The backend engine (backend/services/game_service.py): static operations that
    validate a move and then update one mutable GameState in place. */
module GameService {
  import opened GameModels
  import opened Rules
  import opened Lists

  /** create_empty_board: a fresh 6 by 6 grid of 'empty' cells. */
  method CreateEmptyBoard() returns (board: array2<Cell>)
    ensures fresh(board) && board.Length0 == 6 && board.Length1 == 6
    ensures Grid(board) == DefaultBoard()
  {
    board := new Cell[6, 6]((_, _) => Empty);
    BoardsEqual(Grid(board), DefaultBoard());
  }

  /** create_game_state_snapshot: the game fields of the state, with the board copied by
      value, so that later writes to the grid do not reach the snapshot. */
  function CreateGameStateSnapshot(gs: GameState): (s: Snapshot)
    reads gs, gs.board
    requires gs.Valid()
    ensures WellFormed(s.board) && forall r, c :: InBounds(r, c) ==> s.board[r][c] == gs.board[r, c]
    ensures s.currentPlayer == gs.currentPlayer && s.gamePhase == gs.gamePhase && s.round == gs.round
    ensures s.availableDirections == gs.availableDirections && s.winner == gs.winner
    ensures s.starsPlaced == gs.starsPlaced && s.settings == gs.settings
  {
    Snapshot(Grid(gs.board), gs.currentPlayer, gs.gamePhase, gs.round, gs.availableDirections,
             gs.winner, gs.starsPlaced, gs.settings)
  }

  /** The backend's count of directions: one is retired per completed round, none twice. */
  ghost predicate DirectionsTally(s: Snapshot) {
    NoDuplicates(s.availableDirections) && |s.availableDirections| + s.round == 9
  }

  /** Every invariant of a backend game: the current game fields and every recorded
      snapshot are coherent and keep the direction tally, and every snapshot was taken
      while no winner was set. */
  ghost predicate ConsistentGame(s: Snapshot, history: seq<GameHistoryEntry>) {
    && Coherent(s) && DirectionsTally(s)
    && forall i :: 0 <= i < |history| ==>
         Coherent(history[i].snapshot) && DirectionsTally(history[i].snapshot) &&
         history[i].snapshot.winner.None?
  }

  ghost predicate Consistent(gs: GameState)
    reads gs, gs.board
  {
    gs.Valid() && ConsistentGame(CreateGameStateSnapshot(gs), gs.gameHistory)
  }

  /** A legal star placement keeps every invariant of the game. */
  lemma PlaceStarKeepsConsistent(s: Snapshot, history: seq<GameHistoryEntry>, row: int, col: int)
    requires ConsistentGame(s, history) && PlaceStarRejection(s, row, col).None?
    ensures ConsistentGame(
      s.(board := PlaceAt(s.board, row, col), currentPlayer := 2, gamePhase := DirectionPhase,
         starsPlaced := s.starsPlaced + 1),
      history + [GameHistoryEntry(s, StarPlaced(row, col))])
  {
    CountPlaceAt(s.board, row, col);
  }

  /** A legal direction move keeps every invariant of the game. */
  lemma ApplyDirectionKeepsConsistent(s: Snapshot, history: seq<GameHistoryEntry>, direction: Direction, t: Snapshot)
    requires ConsistentGame(s, history) && ApplyDirectionRejection(s, direction).None?
    requires DirectionApplied(s, history, direction, t, history + [GameHistoryEntry(s, DirectionSelected(direction))])
    ensures ConsistentGame(t, history + [GameHistoryEntry(s, DirectionSelected(direction))])
  {
    FillKeepsStars(s.board, direction);
  }

  /** Restoring the last snapshot (with the current settings) keeps every invariant of the game. */
  lemma UndoKeepsConsistent(s: Snapshot, history: seq<GameHistoryEntry>)
    requires ConsistentGame(s, history) && |history| > 0
    ensures ConsistentGame(history[|history| - 1].snapshot.(settings := s.settings), history[..|history| - 1])
  {
  }

  /** The message with which place_star rejects a move, in the order the checks are made;
      None when the move is legal. */
  function PlaceStarRejection(s: Snapshot, row: int, col: int): (reason: Option<string>)
    requires WellFormed(s.board)
    ensures reason.None? <==>
      s.currentPlayer == 1 && s.gamePhase == PlacementPhase && s.winner.None? &&
      InBounds(row, col) && s.board[row][col] == Empty
  {
    if s.currentPlayer != 1 then Some("Not Player 1's turn")
    else if s.gamePhase != PlacementPhase then Some("Not in placement phase")
    else if s.winner.Some? then Some("Game is already finished")
    else if row < 0 || row >= 6 || col < 0 || col >= 6 then Some("Invalid position")
    else if s.board[row][col] != Empty then Some("Position is not empty")
    else None
  }

  /** place_star: on a legal move records the pre-move snapshot, writes a star at
      (row, col) and hands the turn to Player 2 in the direction phase; otherwise reports
      why and leaves the state untouched. */
  method PlaceStar(gs: GameState, row: int, col: int) returns (ok: bool, message: string)
    requires gs.Valid()
    modifies gs, gs.board
    ensures gs.Valid() && gs.board == old(gs.board)
    ensures var reason := PlaceStarRejection(old(CreateGameStateSnapshot(gs)), row, col);
      ok == reason.None? && (!ok ==> message == reason.value)
    ensures ok ==> message == "Star placed successfully"
    ensures !ok ==> unchanged(gs) && unchanged(gs.board)
    ensures ok ==>
      && Grid(gs.board) == PlaceAt(old(Grid(gs.board)), row, col)
      && gs.currentPlayer == 2 && gs.gamePhase == DirectionPhase
      && gs.starsPlaced == old(gs.starsPlaced) + 1
      && gs.round == old(gs.round) && gs.availableDirections == old(gs.availableDirections)
      && gs.winner == old(gs.winner) && gs.settings == old(gs.settings)
      && gs.gameHistory == old(gs.gameHistory) +
           [GameHistoryEntry(old(CreateGameStateSnapshot(gs)), StarPlaced(row, col))]
    ensures old(Consistent(gs)) ==> Consistent(gs)
  {
    if gs.currentPlayer != 1 {
      return false, "Not Player 1's turn";
    }
    if gs.gamePhase != PlacementPhase {
      return false, "Not in placement phase";
    }
    if gs.winner.Some? {
      return false, "Game is already finished";
    }
    if row < 0 || row >= 6 || col < 0 || col >= 6 {
      return false, "Invalid position";
    }
    if gs.board[row, col] != Empty {
      return false, "Position is not empty";
    }
    ghost var before := Grid(gs.board);
    ghost var history := gs.gameHistory;
    var snapshot := CreateGameStateSnapshot(gs);
    gs.gameHistory := gs.gameHistory + [GameHistoryEntry(snapshot, StarPlaced(row, col))];
    gs.board[row, col] := Star;
    gs.currentPlayer := 2;
    gs.gamePhase := DirectionPhase;
    gs.starsPlaced := gs.starsPlaced + 1;
    BoardsEqual(Grid(gs.board), PlaceAt(before, row, col));
    assert CreateGameStateSnapshot(gs) ==
      snapshot.(board := PlaceAt(before, row, col), currentPlayer := 2, gamePhase := DirectionPhase,
                starsPlaced := snapshot.starsPlaced + 1);
    if ConsistentGame(snapshot, history) {
      PlaceStarKeepsConsistent(snapshot, history, row, col);
    }
    return true, "Star placed successfully";
  }

  /** The message with which apply_direction rejects a move, in the order the checks are
      made; None when the move is legal. */
  function ApplyDirectionRejection(s: Snapshot, direction: Direction): (reason: Option<string>)
    ensures reason.None? <==>
      s.currentPlayer == 2 && s.gamePhase == DirectionPhase && s.winner.None? &&
      direction in s.availableDirections && IsCompass(direction)
  {
    if s.currentPlayer != 2 then Some("Not Player 2's turn")
    else if s.gamePhase != DirectionPhase then Some("Not in direction phase")
    else if s.winner.Some? then Some("Game is already finished")
    else if direction !in s.availableDirections then Some("Direction not available")
    else if !IsCompass(direction) then Some("Invalid direction")
    else None
  }

  /** The walk of one ray: from one step past (row, col) to the board edge, every empty
      cell becomes a circle; stars and circles on the way are passed over. */
  method DrawLine(board: array2<Cell>, d: Direction, row: int, col: int)
    requires board.Length0 == 6 && board.Length1 == 6 && IsCompass(d) && InBounds(row, col)
    modifies board
    ensures forall r, c :: InBounds(r, c) ==>
      board[r, c] == if old(board[r, c]) == Empty && OnRay(d, row, col, r, c) then Circle else old(board[r, c])
  {
    var (dRow, dCol) := Vector(d);
    var currentRow := row + dRow;
    var currentCol := col + dCol;
    ghost var k := 1;
    while 0 <= currentRow < 6 && 0 <= currentCol < 6
      invariant k >= 1
      invariant currentRow == row + Offset(k, dRow) && currentCol == col + Offset(k, dCol)
      invariant forall r, c :: InBounds(r, c) ==>
        board[r, c] == if old(board[r, c]) == Empty && OnRay(d, row, col, r, c) && Steps(d, row, col, r, c) < k
                       then Circle else old(board[r, c])
      decreases 6 - k
    {
      if board[currentRow, currentCol] == Empty {
        board[currentRow, currentCol] := Circle;
      }
      currentRow := currentRow + dRow;
      currentCol := currentCol + dCol;
      k := k + 1;
    }
    forall r, c | InBounds(r, c) && OnRay(d, row, col, r, c)
      ensures Steps(d, row, col, r, c) < k
    {
      RayLeavesBoard(d, row, col, k, r, c);
    }
  }

  /** One pass of the column loop of apply_direction: draws the rays of the stars of one
      row, reading each star from the grid being written. */
  method DrawRowLines(board: array2<Cell>, d: Direction, ghost start: Board, row: int)
    requires board.Length0 == 6 && board.Length1 == 6 && IsCompass(d) && WellFormed(start) && 0 <= row < 6
    requires forall r, c :: InBounds(r, c) ==> board[r, c] == PartialFill(start, d, row * 6, r, c)
    modifies board
    ensures forall r, c :: InBounds(r, c) ==> board[r, c] == PartialFill(start, d, row * 6 + 6, r, c)
  {
    for col := 0 to 6
      invariant forall r, c :: InBounds(r, c) ==> board[r, c] == PartialFill(start, d, row * 6 + col, r, c)
    {
      PartialFillStep(start, d, row, col);
      if board[row, col] == Star {
        DrawLine(board, d, row, col);
      }
    }
  }

  /** The fill loop of apply_direction, run on the grid it is writing. A star is never
      overwritten, so reading stars from the grid being written finds the same stars
      as reading them from an unmodified copy: the result is the reference fill. */
  method DrawLines(board: array2<Cell>, d: Direction)
    requires board.Length0 == 6 && board.Length1 == 6 && IsCompass(d)
    modifies board
    ensures Grid(board) == Fill(old(Grid(board)), d)
  {
    ghost var start := Grid(board);
    for row := 0 to 6
      invariant forall r, c :: InBounds(r, c) ==> board[r, c] == PartialFill(start, d, row * 6, r, c)
    {
      DrawRowLines(board, d, start, row);
    }
    BoardsEqual(Grid(board), Fill(start, d));
  }

  /** The effect of a legal direction move: the ok path of apply_direction. */
  ghost predicate DirectionApplied(s: Snapshot, history: seq<GameHistoryEntry>, direction: Direction,
                                   t: Snapshot, history': seq<GameHistoryEntry>)
    requires WellFormed(s.board) && IsCompass(direction) && direction in s.availableDirections
  {
    && t.board == Fill(s.board, direction)
    && t.availableDirections == RemoveFirst(s.availableDirections, direction)
    && t.currentPlayer == 1 && t.gamePhase == PlacementPhase
    && t.round == s.round + 1
    && t.winner == Winner(t.board, t.round, t.settings)
    && t.starsPlaced == s.starsPlaced && t.settings == s.settings
    && history' == history + [GameHistoryEntry(s, DirectionSelected(direction))]
  }

  /** The last steps of apply_direction: retire the direction, hand the turn to Player 1
      for the next round and record the winner, if the winner rule gives one. */
  method AdvanceRound(gs: GameState, direction: Direction)
    requires gs.Valid() && direction in gs.availableDirections && gs.winner.None?
    modifies gs
    ensures gs.Valid() && gs.board == old(gs.board)
    ensures gs.availableDirections == RemoveFirst(old(gs.availableDirections), direction)
    ensures gs.currentPlayer == 1 && gs.gamePhase == PlacementPhase && gs.round == old(gs.round) + 1
    ensures gs.winner == Winner(Grid(gs.board), gs.round, gs.settings)
    ensures gs.starsPlaced == old(gs.starsPlaced) && gs.settings == old(gs.settings)
    ensures gs.gameHistory == old(gs.gameHistory)
  {
    gs.availableDirections := RemoveFirst(gs.availableDirections, direction);
    gs.currentPlayer := 1;
    gs.gamePhase := PlacementPhase;
    gs.round := gs.round + 1;
    var winner := CheckWinner(gs);
    if winner.Some? {
      gs.winner := winner;
    }
  }

  /** apply_direction once its checks have passed: records the pre-move snapshot, fills
      the rays of every star, retires the direction, starts the next round with Player 1
      and sets the winner if the game has ended. */
  method CommitDirection(gs: GameState, direction: Direction)
    requires gs.Valid() && ApplyDirectionRejection(CreateGameStateSnapshot(gs), direction).None?
    modifies gs, gs.board
    ensures gs.Valid() && gs.board == old(gs.board)
    ensures DirectionApplied(old(CreateGameStateSnapshot(gs)), old(gs.gameHistory), direction,
                             CreateGameStateSnapshot(gs), gs.gameHistory)
    ensures old(Consistent(gs)) ==> Consistent(gs)
  {
    ghost var history := gs.gameHistory;
    ghost var wasConsistent := Consistent(gs);
    var snapshot := CreateGameStateSnapshot(gs);
    gs.gameHistory := gs.gameHistory + [GameHistoryEntry(snapshot, DirectionSelected(direction))];
    DrawLines(gs.board, direction);
    ghost var filled := Fill(snapshot.board, direction);
    assert Grid(gs.board) == filled;
    AdvanceRound(gs, direction);
    ghost var t := CreateGameStateSnapshot(gs);
    assert t == Snapshot(filled, 1, PlacementPhase, snapshot.round + 1,
                         RemoveFirst(snapshot.availableDirections, direction),
                         Winner(filled, snapshot.round + 1, snapshot.settings),
                         snapshot.starsPlaced, snapshot.settings);
    if wasConsistent {
      ApplyDirectionKeepsConsistent(snapshot, history, direction, t);
    }
  }

  /** apply_direction: on a legal move records the pre-move snapshot, fills the rays of
      every star, retires the direction, starts the next round with Player 1 and sets the
      winner if the game has ended; otherwise reports why and leaves the state untouched. */
  method ApplyDirection(gs: GameState, direction: Direction) returns (ok: bool, message: string)
    requires gs.Valid()
    modifies gs, gs.board
    ensures gs.Valid() && gs.board == old(gs.board)
    ensures var reason := ApplyDirectionRejection(old(CreateGameStateSnapshot(gs)), direction);
      ok == reason.None? && (!ok ==> message == reason.value)
    ensures ok ==> message == "Direction applied successfully"
    ensures !ok ==> unchanged(gs) && unchanged(gs.board)
    ensures ok ==> DirectionApplied(old(CreateGameStateSnapshot(gs)), old(gs.gameHistory), direction,
                                    CreateGameStateSnapshot(gs), gs.gameHistory)
    ensures ok ==> |gs.availableDirections| == old(|gs.availableDirections|) - 1
    ensures old(Consistent(gs)) ==> Consistent(gs)
  {
    if gs.currentPlayer != 2 {
      return false, "Not Player 2's turn";
    }
    if gs.gamePhase != DirectionPhase {
      return false, "Not in direction phase";
    }
    if gs.winner.Some? {
      return false, "Game is already finished";
    }
    if direction !in gs.availableDirections {
      return false, "Direction not available";
    }
    if !IsCompass(direction) {
      return false, "Invalid direction";
    }
    CommitDirection(gs, direction);
    return true, "Direction applied successfully";
  }

  /** check_winner: the winner rule applied to the current board, round and settings. */
  method CheckWinner(gs: GameState) returns (winner: Option<int>)
    requires gs.Valid()
    ensures winner == Winner(Grid(gs.board), gs.round, gs.settings)
  {
    if gs.round > gs.settings.numberOfRounds {
      var emptyCount := CountEmptySquares(gs.board);
      if emptyCount >= gs.settings.emptySquaresToWin {
        return Some(1);
      } else {
        return Some(2);
      }
    }
    return None;
  }

  /** count_empty_squares: the number of 'empty' cells, row by row. */
  method CountEmptySquares(board: array2<Cell>) returns (count: int)
    requires board.Length0 == 6 && board.Length1 == 6
    ensures count == Count(Grid(board), Empty)
  {
    ghost var g := Grid(board);
    count := 0;
    for row := 0 to 6
      invariant count == Count(g[..row], Empty)
    {
      for col := 0 to 6
        invariant count == Count(g[..row], Empty) + CountRow(g[row][..col], Empty)
      {
        assert g[row][..col + 1][..col] == g[row][..col];
        if board[row, col] == Empty {
          count := count + 1;
        }
      }
      assert g[..row + 1][..row] == g[..row];
      assert g[row][..6] == g[row];
    }
    assert g[..6] == g;
  }

  /** count_stars: the number of 'star' cells, row by row. */
  method CountStars(board: array2<Cell>) returns (count: int)
    requires board.Length0 == 6 && board.Length1 == 6
    ensures count == Count(Grid(board), Star)
  {
    ghost var g := Grid(board);
    count := 0;
    for row := 0 to 6
      invariant count == Count(g[..row], Star)
    {
      for col := 0 to 6
        invariant count == Count(g[..row], Star) + CountRow(g[row][..col], Star)
      {
        assert g[row][..col + 1][..col] == g[row][..col];
        if board[row, col] == Star {
          count := count + 1;
        }
      }
      assert g[..row + 1][..row] == g[..row];
      assert g[row][..6] == g[row];
    }
    assert g[..6] == g;
  }

  /** The restoring steps of undo_move: a fresh grid copied from the snapshot's board,
      and every game field from the snapshot except the settings. */
  method Restore(gs: GameState, snap: Snapshot)
    requires gs.Valid() && WellFormed(snap.board)
    modifies gs
    ensures gs.Valid() && fresh(gs.board)
    ensures Grid(gs.board) == snap.board
    ensures gs.currentPlayer == snap.currentPlayer && gs.gamePhase == snap.gamePhase
    ensures gs.round == snap.round && gs.availableDirections == snap.availableDirections
    ensures gs.winner == snap.winner && gs.starsPlaced == snap.starsPlaced
    ensures gs.settings == old(gs.settings) && gs.gameHistory == old(gs.gameHistory)
  {
    var saved := snap.board;
    gs.board := new Cell[6, 6]((r, c) requires InBounds(r, c) => saved[r][c]);
    gs.currentPlayer := snap.currentPlayer;
    gs.gamePhase := snap.gamePhase;
    gs.round := snap.round;
    gs.availableDirections := snap.availableDirections;
    gs.winner := snap.winner;
    gs.starsPlaced := snap.starsPlaced;
    BoardsEqual(Grid(gs.board), saved);
  }

  /** undo_move: refuses on an empty history and once a winner is set; otherwise pops the
      last snapshot and restores from it a fresh board and every game field except the
      settings, which the source leaves as they are. */
  method UndoMove(gs: GameState) returns (ok: bool, message: string)
    requires gs.Valid()
    modifies gs
    ensures gs.Valid()
    ensures ok <==> old(|gs.gameHistory| > 0 && gs.winner.None?)
    ensures !ok ==> unchanged(gs)
    ensures !ok ==> message == if old(|gs.gameHistory|) == 0 then "No moves to undo" else "Cannot undo after game is finished"
    ensures ok ==> message == "Move undone successfully"
    ensures ok ==>
      var last := old(gs.gameHistory[|gs.gameHistory| - 1].snapshot);
      && fresh(gs.board)
      && Grid(gs.board) == last.board
      && gs.currentPlayer == last.currentPlayer && gs.gamePhase == last.gamePhase
      && gs.round == last.round && gs.availableDirections == last.availableDirections
      && gs.winner == last.winner && gs.starsPlaced == last.starsPlaced
      && gs.settings == old(gs.settings)
      && gs.gameHistory == old(gs.gameHistory[..|gs.gameHistory| - 1])
    ensures old(Consistent(gs)) ==> Consistent(gs)
  {
    if |gs.gameHistory| == 0 {
      return false, "No moves to undo";
    }
    if gs.winner.Some? {
      return false, "Cannot undo after game is finished";
    }
    ghost var current := CreateGameStateSnapshot(gs);
    ghost var history := gs.gameHistory;
    ghost var wasConsistent := ConsistentGame(current, history);
    var lastState := gs.gameHistory[|gs.gameHistory| - 1];
    gs.gameHistory := gs.gameHistory[..|gs.gameHistory| - 1];
    Restore(gs, lastState.snapshot);
    assert CreateGameStateSnapshot(gs) == lastState.snapshot.(settings := current.settings);
    if wasConsistent {
      UndoKeepsConsistent(current, history);
    }
    return true, "Move undone successfully";
  }

  /** create_new_game: a fresh game on an empty board, with the given settings or the defaults. */
  method CreateNewGame(settings: Option<GameSettings>) returns (gs: GameState)
    ensures fresh(gs) && fresh(gs.board) && gs.Valid()
    ensures Grid(gs.board) == DefaultBoard()
    ensures gs.settings == if settings.Some? then settings.value else DefaultSettings
    ensures gs.currentPlayer == 1 && gs.gamePhase == PlacementPhase && gs.round == 1
    ensures gs.availableDirections == AllDirections && gs.winner == None
    ensures gs.starsPlaced == 0 && gs.gameHistory == []
    ensures Consistent(gs)
  {
    var chosen := if settings.Some? then settings.value else DefaultSettings;
    var board := CreateEmptyBoard();
    gs := new GameState(board, chosen);
    DefaultBoardCounts();
    AllDirectionsAreTheCompass();
    assert CreateGameStateSnapshot(gs) == Snapshot(DefaultBoard(), 1, PlacementPhase, 1, AllDirections, None, 0, chosen);
  }

  /** A star placement followed by an undo restores every game field and the history. */
  method PlaceStarThenUndo(gs: GameState, row: int, col: int) returns (placed: bool, undone: bool)
    requires gs.Valid()
    modifies gs, gs.board
    ensures gs.Valid()
    ensures placed ==> undone
    ensures CreateGameStateSnapshot(gs) == old(CreateGameStateSnapshot(gs))
    ensures gs.gameHistory == old(gs.gameHistory)
  {
    var message;
    placed, message := PlaceStar(gs, row, col);
    if placed {
      undone, message := UndoMove(gs);
    } else {
      undone := false;
    }
  }

  /** A direction move followed by an undo restores every game field and the history,
      unless the move ended the game, in which case the undo is refused. */
  method ApplyDirectionThenUndo(gs: GameState, direction: Direction) returns (applied: bool, undone: bool)
    requires gs.Valid()
    modifies gs, gs.board
    ensures gs.Valid()
    ensures applied && !undone ==> gs.winner.Some?
    ensures applied && undone ==>
      CreateGameStateSnapshot(gs) == old(CreateGameStateSnapshot(gs)) && gs.gameHistory == old(gs.gameHistory)
  {
    var message;
    applied, message := ApplyDirection(gs, direction);
    if applied {
      undone, message := UndoMove(gs);
    } else {
      undone := false;
    }
  }

  /** With more configured rounds than directions, the game can never end: a legal
      direction move always leaves the winner unset. */
  lemma NoWinnerWithMoreRoundsThanDirections(s: Snapshot, direction: Direction)
    requires WellFormed(s.board) && DirectionsTally(s) && s.settings.numberOfRounds >= 9
    requires ApplyDirectionRejection(s, direction).None?
    ensures Winner(Fill(s.board, direction), s.round + 1, s.settings).None?
  {
  }
}
