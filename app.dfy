/** The frontend game screen (frontend/src/App.js): each handler builds the successor of
    the current state as a new value and then commits it as the one current state. The
    successor functions are stated here, the handlers below run them step by step. */
module App {
  import opened GameModels
  import opened Rules
  import opened Lists
  import opened MockData

  /** JavaScript truthiness of the winner field: null and 0 are falsy. */
  predicate IsSet(w: Option<int>) {
    w.Some? && w.value != 0
  }

  /** The guard of handleCellClick. */
  predicate PlacementAllowed(s: ClientState) {
    s.currentPlayer == 1 && s.gamePhase == PlacementPhase && !IsSet(s.winner)
  }

  /** The guard of handleDirectionSelect. */
  predicate DirectionAllowed(s: ClientState) {
    s.currentPlayer == 2 && s.gamePhase == DirectionPhase && !IsSet(s.winner)
  }

  /** saveGameState: the new state's game fields, with the history of the current state
      extended by the snapshot of the current state and the move's label. */
  function SaveGameState(current: ClientState, newState: ClientState, action: Action): (r: ClientState)
    ensures CreateGameStateSnapshot(r) == CreateGameStateSnapshot(newState)
    ensures |r.gameHistory| == |current.gameHistory| + 1
    ensures r.gameHistory[..|current.gameHistory|] == current.gameHistory
    ensures r.gameHistory[|current.gameHistory|].snapshot == CreateGameStateSnapshot(current)
    ensures r.gameHistory[|current.gameHistory|].action == action
  {
    newState.(gameHistory := current.gameHistory + [GameHistoryEntry(CreateGameStateSnapshot(current), action)])
  }

  /** handleCellClick: nothing happens unless Player 1 is to place and no winner is set,
      nor when placeStar hands back the same board (the cell is not empty or the column is
      off the board); otherwise the star is placed, Player 2 is to choose a direction,
      starsPlaced grows by one and the pre-move snapshot is saved. */
  function CellClick(s: ClientState, row: int, col: int): (r: ClientState)
    requires WellFormed(s.board) && (PlacementAllowed(s) ==> 0 <= row < 6)
    ensures !(PlacementAllowed(s) && InBounds(row, col) && s.board[row][col] == Empty) ==> r == s
    ensures PlacementAllowed(s) && InBounds(row, col) && s.board[row][col] == Empty ==>
      && WellFormed(r.board)
      && (forall i, j :: InBounds(i, j) ==> r.board[i][j] == if i == row && j == col then Star else s.board[i][j])
      && r.currentPlayer == 2 && r.gamePhase == DirectionPhase && r.starsPlaced == s.starsPlaced + 1
      && r.round == s.round && r.availableDirections == s.availableDirections
      && r.winner == s.winner && r.settings == s.settings
      && r.gameHistory == s.gameHistory + [GameHistoryEntry(CreateGameStateSnapshot(s), StarPlaced(row, col))]
  {
    if s.currentPlayer != 1 || s.gamePhase != PlacementPhase || IsSet(s.winner) then s
    else
      var newBoard := PlaceStar(s.board, row, col);
      if newBoard != s.board then
        SaveGameState(s, s.(board := newBoard, currentPlayer := 2, gamePhase := DirectionPhase,
                            starsPlaced := s.starsPlaced + 1), StarPlaced(row, col))
      else s
  }

  /** handleDirectionSelect: nothing happens unless Player 2 is to choose and no winner is
      set. Otherwise the rays are drawn, every copy of the direction is filtered out of the
      available list (which is not checked to hold it), the round advances, the winner is
      taken from the winner rule, Player 1 is to place and the pre-move snapshot is saved. */
  ghost function DirectionSelect(s: ClientState, direction: Direction): (r: ClientState)
    requires WellFormed(s.board) && (DirectionAllowed(s) ==> IsCompass(direction))
    ensures !DirectionAllowed(s) ==> r == s
    ensures DirectionAllowed(s) ==>
      && r.board == Fill(s.board, direction)
      && r.availableDirections == Filter(s.availableDirections, direction)
      && r.round == s.round + 1
      && r.winner == Winner(r.board, r.round, s.settings)
      && r.currentPlayer == 1 && r.gamePhase == PlacementPhase
      && r.starsPlaced == s.starsPlaced && r.settings == s.settings
      && r.gameHistory == s.gameHistory + [GameHistoryEntry(CreateGameStateSnapshot(s), DirectionSelected(direction))]
  {
    if s.currentPlayer != 2 || s.gamePhase != DirectionPhase || IsSet(s.winner) then s
    else
      var newBoard := Fill(s.board, direction);
      var newRound := s.round + 1;
      SaveGameState(s, s.(board := newBoard, currentPlayer := 1, gamePhase := PlacementPhase, round := newRound,
                          availableDirections := Filter(s.availableDirections, direction),
                          winner := Winner(newBoard, newRound, s.settings)), DirectionSelected(direction))
  }

  /** handleUndo: nothing happens on an empty history; otherwise the state becomes the
      last history entry, settings included, with the history minus that entry. A winner
      does not prevent it. */
  function Undo(s: ClientState): (r: ClientState)
    ensures |s.gameHistory| == 0 ==> r == s
    ensures |s.gameHistory| > 0 ==>
      && CreateGameStateSnapshot(r) == s.gameHistory[|s.gameHistory| - 1].snapshot
      && r.gameHistory == s.gameHistory[..|s.gameHistory| - 1]
  {
    if |s.gameHistory| == 0 then s
    else
      var lastState := s.gameHistory[|s.gameHistory| - 1];
      WithHistory(lastState.snapshot, s.gameHistory[..|s.gameHistory| - 1])
  }

  /** Undoing a saved move gives back the state the move was made from, history included. */
  lemma UndoAfterSave(current: ClientState, newState: ClientState, action: Action)
    ensures Undo(SaveGameState(current, newState, action)) == current
  {
  }

  /** A star placement that took effect is undone exactly. */
  lemma UndoAfterCellClick(s: ClientState, row: int, col: int)
    requires WellFormed(s.board) && (PlacementAllowed(s) ==> 0 <= row < 6)
    requires CellClick(s, row, col) != s
    ensures Undo(CellClick(s, row, col)) == s
  {
  }

  /** A direction move that took effect is undone exactly, also when it ended the game. */
  lemma UndoAfterDirectionSelect(s: ClientState, direction: Direction)
    requires WellFormed(s.board) && DirectionAllowed(s) && IsCompass(direction)
    ensures Undo(DirectionSelect(s, direction)) == s
  {
  }

  /** A player move as the screen receives it: a click on a cell or a chosen direction. */
  datatype Move = Click(row: int, col: int) | Choose(direction: Direction)

  /** The move takes effect in state s: its handler's guard holds and it is not a no-op. */
  predicate Effective(s: ClientState, m: Move)
    requires WellFormed(s.board)
  {
    match m
    case Click(row, col) => PlacementAllowed(s) && InBounds(row, col) && s.board[row][col] == Empty
    case Choose(direction) => DirectionAllowed(s) && IsCompass(direction)
  }

  ghost function Step(s: ClientState, m: Move): (r: ClientState)
    requires WellFormed(s.board) && Effective(s, m)
    ensures WellFormed(r.board)
  {
    match m
    case Click(row, col) => CellClick(s, row, col)
    case Choose(direction) => DirectionSelect(s, direction)
  }

  /** Each move of the list takes effect in the state the previous ones lead to. */
  ghost predicate Playable(s: ClientState, moves: seq<Move>)
    requires WellFormed(s.board)
    decreases |moves|, 0
  {
    |moves| == 0 ||
    (Playable(s, moves[..|moves| - 1]) && Effective(Play(s, moves[..|moves| - 1]), moves[|moves| - 1]))
  }

  /** The state reached by playing the moves one after the other. */
  ghost function Play(s: ClientState, moves: seq<Move>): (r: ClientState)
    requires WellFormed(s.board) && Playable(s, moves)
    ensures WellFormed(r.board)
    decreases |moves|, 1
  {
    if |moves| == 0 then s
    else Step(Play(s, moves[..|moves| - 1]), moves[|moves| - 1])
  }

  /** handleUndo pressed n times. */
  function UndoTimes(s: ClientState, n: nat): ClientState
    decreases n
  {
    if n == 0 then s else UndoTimes(Undo(s), n - 1)
  }

  /** A move that takes effect is undone exactly. */
  lemma UndoStep(s: ClientState, m: Move)
    requires WellFormed(s.board) && Effective(s, m)
    ensures Undo(Step(s, m)) == s
  {
  }

  /** Undoing as many times as moves were played gives back the state they started from,
      whatever the moves were, and also when the last of them ended the game. */
  lemma {:induction false} UndoUnwindsPlay(s: ClientState, moves: seq<Move>)
    requires WellFormed(s.board) && Playable(s, moves)
    ensures UndoTimes(Play(s, moves), |moves|) == s
    decreases |moves|
  {
    if |moves| > 0 {
      var init := moves[..|moves| - 1];
      var before := Play(s, init);
      var after := Play(s, moves);
      assert after == Step(before, moves[|moves| - 1]);
      UndoStep(before, moves[|moves| - 1]);
      assert UndoTimes(after, |moves|) == UndoTimes(before, |init|);
      UndoUnwindsPlay(s, init);
    }
  }

  /** Every invariant of a client game: the current game fields and every saved snapshot
      are coherent. */
  ghost predicate ConsistentState(s: ClientState) {
    && Coherent(CreateGameStateSnapshot(s))
    && forall i :: 0 <= i < |s.gameHistory| ==> Coherent(s.gameHistory[i].snapshot)
  }

  /** In a coherent state a winner is truthy exactly when it is set at all. */
  lemma CoherentWinnerTruthy(s: ClientState)
    requires Coherent(CreateGameStateSnapshot(s))
    ensures IsSet(s.winner) <==> s.winner.Some?
  {
  }

  /** A new game is consistent. */
  lemma InitialConsistent(settings: Option<GameSettings>)
    ensures ConsistentState(CreateInitialGameState(settings))
  {
    DefaultBoardCounts();
    var s := CreateInitialGameState(settings);
    assert s.board == DefaultBoard() by {
      BoardsEqual(s.board, DefaultBoard());
    }
  }

  lemma CellClickPreservesConsistency(s: ClientState, row: int, col: int)
    requires ConsistentState(s) && (PlacementAllowed(s) ==> 0 <= row < 6)
    ensures ConsistentState(CellClick(s, row, col))
  {
    if PlacementAllowed(s) && InBounds(row, col) && s.board[row][col] == Empty {
      CoherentWinnerTruthy(s);
      CountPlaceAt(s.board, row, col);
      BoardsEqual(CellClick(s, row, col).board, PlaceAt(s.board, row, col));
    }
  }

  lemma DirectionSelectPreservesConsistency(s: ClientState, direction: Direction)
    requires ConsistentState(s) && (DirectionAllowed(s) ==> IsCompass(direction))
    ensures ConsistentState(DirectionSelect(s, direction))
  {
    if DirectionAllowed(s) {
      FillKeepsStars(s.board, direction);
    }
  }

  lemma UndoPreservesConsistency(s: ClientState)
    requires ConsistentState(s)
    ensures ConsistentState(Undo(s))
  {
  }

  /** Only empty cells ever change: a move turns some of them into stars or circles and
      leaves every star and circle where it was. */
  ghost predicate OnlyEmptyCellsChange(before: Board, after: Board)
    requires WellFormed(before) && WellFormed(after)
  {
    forall r, c :: InBounds(r, c) && before[r][c] != Empty ==> after[r][c] == before[r][c]
  }

  lemma MovesOnlyFillEmptyCells(s: ClientState, row: int, col: int, direction: Direction)
    requires WellFormed(s.board) && (PlacementAllowed(s) ==> 0 <= row < 6) && (DirectionAllowed(s) ==> IsCompass(direction))
    ensures WellFormed(CellClick(s, row, col).board) && OnlyEmptyCellsChange(s.board, CellClick(s, row, col).board)
    ensures WellFormed(DirectionSelect(s, direction).board) && OnlyEmptyCellsChange(s.board, DirectionSelect(s, direction).board)
  {
  }

  /** Choosing a direction that is no longer available is not refused: the round still
      advances and the available list stays as it was. */
  lemma UnavailableDirectionStillAdvances(s: ClientState, direction: Direction)
    requires WellFormed(s.board) && DirectionAllowed(s) && IsCompass(direction)
    requires direction !in s.availableDirections
    ensures DirectionSelect(s, direction).round == s.round + 1
    ensures DirectionSelect(s, direction).availableDirections == s.availableDirections
  {
  }

  /** Choosing an available direction from a list without repeats retires exactly that
      direction: the list loses one element and still has no repeats. */
  lemma AvailableDirectionRetired(s: ClientState, direction: Direction)
    requires WellFormed(s.board) && DirectionAllowed(s) && IsCompass(direction)
    requires direction in s.availableDirections && NoDuplicates(s.availableDirections)
    ensures var t := DirectionSelect(s, direction);
      |t.availableDirections| == |s.availableDirections| - 1 && NoDuplicates(t.availableDirections) &&
      direction !in t.availableDirections
  {
    FilterDropsOne(s.availableDirections, direction);
  }

  /** On a board whose only star is at (0, 0) and which has no circle, the direction E
      circles the rest of the top row and nothing else. */
  lemma EastFromCorner(b: Board)
    requires WellFormed(b)
    requires forall r, c :: InBounds(r, c) ==> b[r][c] == if r == 0 && c == 0 then Star else Empty
    ensures Fill(b, E)[0][0] == Star
    ensures forall c :: 1 <= c < 6 ==> Fill(b, E)[0][c] == Circle
    ensures forall r, c :: 1 <= r < 6 && 0 <= c < 6 ==> Fill(b, E)[r][c] == Empty
  {
  }

  /** A star at (0, 0) on a new game followed by the direction E circles the rest of the
      top row and nothing else, starts round 2 without E and without a winner; undo then
      returns to the state just after the star was placed. */
  lemma StarThenEastScenario()
    ensures
      var s0 := CreateInitialGameState(Some(DefaultSettings));
      var s1 := CellClick(s0, 0, 0);
      var s2 := DirectionSelect(s1, E);
      && s1.board[0][0] == Star && s1.currentPlayer == 2 && s1.gamePhase == DirectionPhase && s1.round == 1
      && s2.board[0][0] == Star
      && (forall c :: 1 <= c < 6 ==> s2.board[0][c] == Circle)
      && (forall r, c :: 1 <= r < 6 && 0 <= c < 6 ==> s2.board[r][c] == Empty)
      && s2.round == 2 && E !in s2.availableDirections && s2.winner == None
      && s2.currentPlayer == 1 && s2.gamePhase == PlacementPhase
      && Undo(s2) == s1
  {
    var s0 := CreateInitialGameState(Some(DefaultSettings));
    assert PlacementAllowed(s0) && s0.board[0][0] == Empty;
    var s1 := CellClick(s0, 0, 0);
    EastFromCorner(s1.board);
    UndoAfterDirectionSelect(s1, E);
  }

  /** What the screen holds: the stored settings and the current game. */
  datatype Screen = Screen(gameSettings: GameSettings, gameState: ClientState)

  /** The Apply button of the settings panel as the code runs it: one click calls
      handleSettingsChange and then resetGame. Both are closures of the render the click
      happened in, so resetGame builds the new game from the settings stored before the
      change, and only the stored settings take the chosen value. */
  function ApplySettingsAsWritten(stored: GameSettings, chosen: GameSettings): (r: Screen)
    ensures r.gameSettings == chosen && r.gameState.settings == stored
    ensures r.gameState.round == 1 && r.gameState.gameHistory == [] && ConsistentState(r.gameState)
  {
    InitialConsistent(Some(stored));
    Screen(chosen, CreateInitialGameState(Some(stored)))
  }

  /** The Apply button as its notice describes it: a new game started with the chosen
      settings, which are also the stored ones. */
  function ApplySettingsIntended(chosen: GameSettings): (r: Screen)
    ensures r.gameSettings == chosen && r.gameState.settings == chosen
    ensures r.gameState.round == 1 && r.gameState.gameHistory == [] && ConsistentState(r.gameState)
  {
    InitialConsistent(Some(chosen));
    Screen(chosen, CreateInitialGameState(Some(chosen)))
  }

  /** The click as written gives the intended screen exactly when the settings were not
      changed at all. */
  lemma ApplySettingsAgreeOnlyWhenUnchanged(stored: GameSettings, chosen: GameSettings)
    ensures ApplySettingsAsWritten(stored, chosen) == ApplySettingsIntended(chosen) <==> stored == chosen
  {
  }

  /** Choosing 4 rounds on a screen that holds the defaults starts a game of 8 rounds. */
  lemma ApplySettingsKeepsOldRounds()
    ensures ApplySettingsAsWritten(DefaultSettings, GameSettings(4, 1, 8)).gameState.settings.numberOfRounds == 8
    ensures ApplySettingsIntended(GameSettings(4, 1, 8)).gameState.settings.numberOfRounds == 4
  {
  }

  /** The game screen: the settings chosen in the settings panel and the current game. */
  class StarDirectionGame {
    var gameSettings: GameSettings
    var gameState: ClientState

    ghost predicate Valid()
      reads this
    {
      ConsistentState(gameState)
    }

    /** The initial hooks: the default settings and a new game with them. */
    constructor ()
      ensures Valid()
      ensures gameSettings == DefaultSettings && gameState == CreateInitialGameState(Some(DefaultSettings))
    {
      gameSettings := DefaultSettings;
      gameState := CreateInitialGameState(Some(DefaultSettings));
      InitialConsistent(Some(DefaultSettings));
    }

    method HandleCellClick(row: int, col: int)
      requires Valid() && (PlacementAllowed(gameState) ==> 0 <= row < 6)
      modifies this
      ensures Valid()
      ensures gameState == CellClick(old(gameState), row, col) && gameSettings == old(gameSettings)
    {
      ghost var before := gameState;
      if gameState.currentPlayer != 1 || gameState.gamePhase != PlacementPhase || IsSet(gameState.winner) {
        return;
      }
      var newBoard := PlaceStar(gameState.board, row, col);
      if newBoard != gameState.board {
        var newState := gameState.(board := newBoard, currentPlayer := 2, gamePhase := DirectionPhase,
                                   starsPlaced := gameState.starsPlaced + 1);
        gameState := SaveGameState(gameState, newState, StarPlaced(row, col));
      }
      CellClickPreservesConsistency(before, row, col);
    }

    method HandleDirectionSelect(direction: Direction)
      requires Valid() && (DirectionAllowed(gameState) ==> IsCompass(direction))
      modifies this
      ensures Valid()
      ensures gameState == DirectionSelect(old(gameState), direction) && gameSettings == old(gameSettings)
    {
      ghost var before := gameState;
      if gameState.currentPlayer != 2 || gameState.gamePhase != DirectionPhase || IsSet(gameState.winner) {
        return;
      }
      var newBoard := ApplyDirection(gameState.board, direction);
      var newAvailableDirections := Filter(gameState.availableDirections, direction);
      var newRound := gameState.round + 1;
      var result := CheckWinner(newBoard, newRound, gameState.settings);
      var newState := gameState.(board := newBoard, currentPlayer := 1, gamePhase := PlacementPhase, round := newRound,
                                 availableDirections := newAvailableDirections, winner := result.winner);
      gameState := SaveGameState(gameState, newState, DirectionSelected(direction));
      DirectionSelectPreservesConsistency(before, direction);
    }

    method HandleUndo()
      requires Valid()
      modifies this
      ensures Valid()
      ensures gameState == Undo(old(gameState)) && gameSettings == old(gameSettings)
    {
      ghost var before := gameState;
      if |gameState.gameHistory| == 0 {
        return;
      }
      var lastState := gameState.gameHistory[|gameState.gameHistory| - 1];
      var newHistory := gameState.gameHistory[..|gameState.gameHistory| - 1];
      gameState := WithHistory(lastState.snapshot, newHistory);
      UndoPreservesConsistency(before);
    }

    /** resetGame: a new game with the settings of the settings panel; the history is gone. */
    method ResetGame()
      modifies this
      ensures Valid()
      ensures gameState == CreateInitialGameState(Some(gameSettings)) && gameSettings == old(gameSettings)
    {
      gameState := CreateInitialGameState(Some(gameSettings));
      InitialConsistent(Some(gameSettings));
    }

    /** handleSettingsChange: records the new settings for the next reset; the current
        game goes on with the settings it was started with. */
    method HandleSettingsChange(newSettings: GameSettings)
      requires Valid()
      modifies this
      ensures Valid()
      ensures gameSettings == newSettings && gameState == old(gameState)
    {
      gameSettings := newSettings;
    }

    /** The Apply button with the settings stored before the new game is built: the
        screen becomes the intended one. */
    method ApplySettings(chosen: GameSettings)
      requires Valid()
      modifies this
      ensures Valid()
      ensures Screen(gameSettings, gameState) == ApplySettingsIntended(chosen)
    {
      HandleSettingsChange(chosen);
      ResetGame();
    }
  }
}
