# Star Direction Game engine in Dafny

This project models the engine of the two-player 6×6 "star / direction" game and proves what it promises:

- Player 1 places a star on an empty cell.
- Player 2 then picks one of the eight compass directions. From every star a ray runs in that direction to the board edge, passing over stars and circles, and turns every empty cell it crosses into a circle.
- Each direction can be used once. The round counter advances after every direction.
- Once the round exceeds the configured number of rounds, Player 1 wins if at least the configured number of cells are still empty, and Player 2 wins otherwise.
- Each move first records a snapshot of the state, and undo restores the latest snapshot.

The engine exists twice in the repository, and both copies are modelled as written:

- **Backend** (`GameService`, file `game_service.dfy`): an imperative state machine over one mutable `GameState` object.
  - The board is a 6×6 `array2` that apply_direction updates in place, cell by cell.
  - History snapshots are board values.
  - Each operation validates the move and then either reports the first failed check with the source's message, changing nothing, or updates the state.
- **Frontend** (`MockData`, file `mock_data.dfy`, and `App`, file `app.dfy`): copy-on-write primitives over board values.
  - Successor functions describe the screen's handlers.
  - The class `App.StarDirectionGame` holds the one current state and commits each successor to it.

Shared definitions live in separate files:

- `game_models.dfy`: the records, their defaults, and the backend `GameState` class.
- `lists.dfy`: Python's `list.remove` and JavaScript's `filter`.
- `rules.dfy`: the reference semantics both copies are proved against. These cover:
  - the direction table and the geometry of a ray;
  - the ray fill `Fill`, specified cell by cell;
  - cell counts and the winner rule;
  - `Coherent`, the facts every reachable state satisfies.

Both fill loops are proved equal to `Fill`:

- The backend loop reads stars from the grid it is writing (`DrawLines`).
- The frontend loop reads them from the unmodified input (`MockData.ApplyDirection`).

So the in-place fill and the fill from an unmodified copy give the same board.

The two copies differ in places, and the model keeps each difference:

- **Undo after a win.** The backend refuses undo once a winner is set (`GameService.UndoMove`). The frontend allows it (`App.Undo`, `App.UndoAfterDirectionSelect`).
- **Bounds.** The backend bounds-checks the target cell. The frontend `placeStar` does not: a column off the board reads as a non-empty cell and gives back the same board.
- **Direction availability.** The backend refuses a direction that is no longer available. The frontend handler does not check availability and still advances the round (`App.UnavailableDirectionStillAdvances`).
- **Retiring a direction.** The backend removes the first occurrence of the direction and the frontend removes every occurrence. The two agree on lists without repeats (`Lists.RemoveFirstIsFilter`).
- **Settings on undo.** Backend undo restores every game field except the settings. Frontend undo restores the settings too.

Three more facts of the code are stated as the code has them:

- **Settings ranges.** No engine code checks the number of rounds or the threshold against a range when a game is created, so any integers are accepted.
- **Undo after the end.** The backend refuses undo once the game has ended; the frontend does not.
- **Settings change.** `handleSettingsChange` records the settings and leaves the current game alone. The settings panel's Apply button calls it and then `resetGame` in the same click, but that `resetGame` still reads the settings from before the change, so the new game keeps the old settings while the stored ones change (see "## Findings").

A backend fact follows from the code: a game configured with 9 or more rounds can never end there. The backend retires one of the 8 directions per round, so the round can never pass 9 (`GameService.NoWinnerWithMoreRoundsThanDirections`).

## Model

| member | source | states |
|---|---|---|
| `GameModels.DefaultBoard` | backend/models/game_models.py:25 | the default board is 6 rows of 6 cells, every one 'empty' |
| `GameModels.GameState.constructor` | backend/models/game_models.py:23-35 | a new GameState has the given board and settings, player 1, placement phase, round 1, the 8 directions, no winner, 0 stars and an empty history |
| `Rules.AllDirectionsAreTheCompass` | backend/models/game_models.py:29 | the default available directions are 8 distinct tags, each a compass tag, and every compass tag is among them |
| `Rules.Vector` | backend/services/game_service.py:8-17 | each of the eight directions has a unit step with components in -1..1 and not both zero (the same table as frontend/src/utils/mockData.js:25-34) |
| `Rules.OnRayIsWalk` | backend/services/game_service.py:111-118 | a cell is on the ray of a star exactly when some number k >= 1 of unit steps leads from the star to it |
| `Rules.Fill` | frontend/src/utils/mockData.js:47-70 | the reference fill: stars and circles stay, an empty cell becomes a circle exactly when it is on the ray of some star, every other empty cell stays empty |
| `Rules.FillIdempotent` | frontend/src/utils/mockData.js:52-67 | filling twice with the same direction gives the same board as filling once |
| `Rules.FillKeepsStars` | backend/services/game_service.py:107-118 | the fill leaves the number of stars unchanged |
| `Rules.PlaceAt` | backend/services/game_service.py:67 | writing a star at (r, c) changes that cell to a star and no other cell |
| `Rules.CountPlaceAt` | backend/services/game_service.py:67-70 | a star on an empty cell adds one star and removes one empty cell, so starsPlaced + 1 matches the board |
| `Rules.CountPartition` | frontend/src/utils/mockData.js:96-118 | empty, star and circle counts add up to 36, and each lies in 0..36 |
| `Rules.DefaultBoardCounts` | backend/services/game_service.py:19-22 | the empty board has 36 empty cells, no star and no circle |
| `Rules.Winner` | backend/services/game_service.py:134-147 | no winner exactly while round <= numberOfRounds; after that 1 exactly when the empty count reaches emptySquaresToWin, else 2 |
| `Rules.CoherentWinnerAfterLastRound` | backend/services/game_service.py:127-130 | in a reachable state a winner is only set after the last configured round, and it is 1 or 2 |
| `Lists.RemoveFirst` | backend/services/game_service.py:121 | list.remove drops exactly the first occurrence: the elements before it stay in place, the ones after it move up by one, the multiset loses one copy of the tag, and a list without repeats stays without repeats and loses the tag |
| `Lists.Filter` | frontend/src/App.js:64 | the filter removes every copy of the tag and keeps every other element as often as it occurs, so an absent tag changes nothing and the list never grows |
| `Lists.FilterConcat` | frontend/src/App.js:64 | the filter keeps the order of the list: filtering a concatenation is the concatenation of the filtered parts |
| `Lists.RemoveFirstIsFilter` | backend/services/game_service.py:121 | on a list without repeats, removing the first occurrence and filtering give the same list |
| `Lists.FilterDropsOne` | frontend/src/App.js:64 | filtering a tag out of a list without repeats that holds it shortens the list by exactly one and keeps it without repeats |
| `GameService.CreateEmptyBoard` | backend/services/game_service.py:19-22 | a fresh 6×6 grid equal to the default board |
| `GameService.CreateGameStateSnapshot` | backend/services/game_service.py:24-36 | the snapshot holds the board cell for cell by value and every game field of the state |
| `GameService.PlaceStarRejection` | backend/services/game_service.py:41-55 | the message of the first failed check; none exactly when player is 1, phase is placement, no winner, (row, col) is on the board and the cell is empty |
| `GameService.PlaceStar` | backend/services/game_service.py:38-73 | on any failed check returns false with that message and changes nothing, history included; otherwise only (row, col) becomes a star, player 2, direction phase, starsPlaced + 1, one history entry holding the pre-move state, the message "Star placed successfully", and the game invariant is kept |
| `GameService.PlaceStarKeepsConsistent` | backend/services/game_service.py:57-70 | a legal placement keeps every state and snapshot coherent and keeps directions plus round at 9 |
| `GameService.ApplyDirectionRejection` | backend/services/game_service.py:78-92 | the message of the first failed check; none exactly when player is 2, phase is direction, no winner, and the direction is available and a compass tag |
| `GameService.DrawLine` | backend/services/game_service.py:110-118 | the walk from one star turns exactly the empty cells on its ray into circles and leaves every other cell as it was |
| `GameService.DrawRowLines` | backend/services/game_service.py:108-118 | the column loop for one row adds exactly the rays of that row's stars to the partial fill |
| `GameService.DrawLines` | backend/services/game_service.py:103-118 | the in-place fill over all stars leaves the grid equal to the reference fill of the grid it started from |
| `GameService.AdvanceRound` | backend/services/game_service.py:120-130 | the direction is removed once, player 1, placement phase, round + 1, the winner from the winner rule on the filled board; board, history, stars and settings unchanged |
| `GameService.CommitDirection` | backend/services/game_service.py:94-130 | after the checks: the pre-move snapshot is appended, the board is the reference fill, the direction is removed, player 1, placement phase, round + 1, the winner from the winner rule, and the game invariant is kept |
| `GameService.ApplyDirection` | backend/services/game_service.py:75-132 | on any failed check returns false with that message and changes nothing; otherwise the effect of CommitDirection, with one direction fewer available, and the message "Direction applied successfully" |
| `GameService.ApplyDirectionKeepsConsistent` | backend/services/game_service.py:120-130 | a legal direction move keeps every state and snapshot coherent and keeps directions plus round at 9 |
| `GameService.CheckWinner` | backend/services/game_service.py:134-147 | returns the winner rule for the current board, round and settings |
| `GameService.CountEmptySquares` | backend/services/game_service.py:149-157 | the number of empty cells of the grid |
| `GameService.CountStars` | backend/services/game_service.py:159-167 | the number of star cells of the grid |
| `GameService.UndoMove` | backend/services/game_service.py:169-191 | fails on an empty history and once a winner is set, changing nothing; otherwise a fresh board equal to the last snapshot's, every game field but the settings from it, the history minus its last entry, the message "Move undone successfully", and the game invariant kept |
| `GameService.Restore` | backend/services/game_service.py:181-188 | a fresh grid equal to the snapshot's board and every game field from the snapshot, the settings and history left as they are |
| `GameService.UndoKeepsConsistent` | backend/services/game_service.py:179-188 | restoring the last snapshot with the current settings gives a consistent game with the shorter history |
| `GameService.CreateNewGame` | backend/services/game_service.py:193-204 | a fresh empty board, the given settings or the defaults, every other field at its default, and a consistent game |
| `GameService.PlaceStarThenUndo` | backend/services/game_service.py:179-188 | a placement that succeeds is always undoable, and undo restores every game field and the history |
| `GameService.ApplyDirectionThenUndo` | backend/services/game_service.py:175-176 | after a direction move, undo is refused only if that move set a winner; otherwise it restores every game field and the history |
| `GameService.NoWinnerWithMoreRoundsThanDirections` | backend/services/game_service.py:121-130 | with 9 or more configured rounds, a legal direction move never sets a winner |
| `MockData.WithHistory` | frontend/src/App.js:92-95 | the state built from a snapshot and a history has the snapshot's game fields and that history |
| `MockData.CreateGameStateSnapshot` | frontend/src/utils/mockData.js:120-131 | the snapshot holds every game field of the state and not its history; putting the history back gives the state again |
| `MockData.CreateInitialGameState` | frontend/src/utils/mockData.js:12-22 | an all-empty 6×6 board, player 1, placement, round 1, the 8 distinct compass tags, no winner, 0 stars, empty history, the given settings or the defaults |
| `MockData.PlaceStar` | frontend/src/utils/mockData.js:38-45 | a changed board exactly when (row, col) is on the board and empty, and then only that cell, now a star; otherwise the same board |
| `MockData.DrawRay` | frontend/src/utils/mockData.js:56-65 | the walk from one star turns exactly the empty cells of the copy on its ray into circles |
| `MockData.ApplyDirection` | frontend/src/utils/mockData.js:47-71 | the copy-based fill equals the reference fill of the input board |
| `MockData.CheckWinner` | frontend/src/utils/mockData.js:73-94 | {null, null} exactly while round <= numberOfRounds; afterwards the empty count and the winner rule's winner |
| `MockData.CountStars` | frontend/src/utils/mockData.js:96-106 | the number of star cells, in 0..36 |
| `MockData.CountEmptySquares` | frontend/src/utils/mockData.js:108-118 | the number of empty cells, in 0..36 |
| `App.IsSet` | frontend/src/App.js:35 | the JavaScript truthiness of the winner field: null and 0 are falsy |
| `App.PlacementAllowed` | frontend/src/App.js:35 | the guard of handleCellClick: player 1, placement phase and no truthy winner |
| `App.DirectionAllowed` | frontend/src/App.js:59 | the guard of handleDirectionSelect: player 2, direction phase and no truthy winner |
| `App.SaveGameState` | frontend/src/App.js:20-32 | the new state's game fields with the old history plus one entry holding the snapshot of the state before the move and the move's label |
| `App.CellClick` | frontend/src/App.js:34-56 | no change unless player 1, placement and no winner, nor when the cell is not empty or off the board; otherwise only that cell becomes a star, player 2, direction phase, starsPlaced + 1, and the pre-move snapshot is appended |
| `App.DirectionSelect` | frontend/src/App.js:58-84 | no change unless player 2, direction and no winner; otherwise the reference fill, the direction filtered out, round + 1, the winner rule's winner, player 1, placement, and the pre-move snapshot appended |
| `App.Undo` | frontend/src/App.js:86-101 | no change on an empty history; otherwise the last snapshot's game fields, settings included, with the history minus its last entry, whatever the winner |
| `App.UndoAfterSave` | frontend/src/App.js:20-31 | undoing a saved move gives back the state before it, history included |
| `App.UndoAfterCellClick` | frontend/src/App.js:39-49 | a placement that took effect is undone exactly |
| `App.UndoAfterDirectionSelect` | frontend/src/App.js:63-78 | a direction move is undone exactly, also when it set a winner |
| `App.UndoStep` | frontend/src/App.js:86-95 | an effective move of either kind is undone exactly |
| `App.UndoUnwindsPlay` | frontend/src/App.js:86-95 | undoing n times after n effective moves gives back the starting state |
| `App.CoherentWinnerTruthy` | frontend/src/App.js:35 | in a reachable state the truthiness test of the winner is the same as its being set |
| `App.InitialConsistent` | frontend/src/utils/mockData.js:12-22 | a new game is consistent |
| `App.CellClickPreservesConsistency` | frontend/src/App.js:41-49 | a cell click keeps the state and its history consistent |
| `App.DirectionSelectPreservesConsistency` | frontend/src/App.js:63-78 | a direction choice keeps the state and its history consistent |
| `App.UndoPreservesConsistency` | frontend/src/App.js:89-95 | undo keeps the state and its history consistent |
| `App.MovesOnlyFillEmptyCells` | frontend/src/utils/mockData.js:38-70 | a cell click and a direction choice change only empty cells: stars and circles stay where they are |
| `App.UnavailableDirectionStillAdvances` | frontend/src/App.js:59-65 | a direction that is no longer available is not refused: the round advances and the list stays as it is |
| `App.AvailableDirectionRetired` | frontend/src/App.js:64 | choosing an available direction from a list without repeats removes exactly that one |
| `App.EastFromCorner` | frontend/src/utils/mockData.js:52-67 | with a single star at (0, 0), the direction E circles (0, 1) to (0, 5) and nothing else |
| `App.StarThenEastScenario` | frontend/src/App.js:34-101 | new game, star at (0, 0), direction E: rest of the top row circled, round 2, E gone, no winner; undo returns to the state just after the star |
| `App.StarDirectionGame.constructor` | frontend/src/App.js:16-17 | the screen starts with the default settings and a new game with them |
| `App.StarDirectionGame.HandleCellClick` | frontend/src/App.js:34-56 | the current state becomes its CellClick successor, and the state stays consistent |
| `App.StarDirectionGame.HandleDirectionSelect` | frontend/src/App.js:58-84 | the current state becomes its DirectionSelect successor, computed with the copy-based fill and the counting winner check |
| `App.StarDirectionGame.HandleUndo` | frontend/src/App.js:86-101 | the current state becomes its Undo successor |
| `App.StarDirectionGame.ResetGame` | frontend/src/App.js:103-110 | the current state becomes a new game with the screen's settings, and the history is gone |
| `App.StarDirectionGame.HandleSettingsChange` | frontend/src/App.js:112-118 | the screen's settings change, and the current game is left as it is |
| `App.ApplySettingsAsWritten` | frontend/src/components/GameSettings.jsx:17-21 | the Apply click as written: the stored settings become the chosen ones, while the new game, consistent and at round 1 with no history, carries the settings stored before the click |
| `App.ApplySettingsIntended` | frontend/src/App.js:112-118 | the Apply click as its notice "New game started with updated settings" describes it: a new consistent game whose settings are the chosen ones, which are also stored |
| `App.ApplySettingsAgreeOnlyWhenUnchanged` | frontend/src/components/GameSettings.jsx:17-21 | the click as written gives the intended screen exactly when the chosen settings equal the stored ones |
| `App.ApplySettingsKeepsOldRounds` | frontend/src/components/GameSettings.jsx:17-21 | choosing 4 rounds over the defaults starts a game of 8 rounds as written and of 4 rounds as intended |
| `App.StarDirectionGame.ApplySettings` | frontend/src/components/GameSettings.jsx:17-21 | handleSettingsChange then resetGame, each committed at once, leave the screen the intended one and the game consistent |

## Left out

- HTTP routes and MongoDB persistence (backend/routes/game_routes.py), the network client (frontend/src/services/gameService.js) and rendering (frontend/src/components): input/output and display, not engine logic.
- Toast notifications, timestamps (`datetime.utcnow()`, `Date.now()`), `createdAt`, `updatedAt` and the uuid game id: nondeterministic, with no effect on the game.
- History entry action labels are kept as a structured `Action` (a cell or a direction), not as the formatted text.
- Cells and directions are enumerations. A cell string other than the three tags is not representable, and the string formatting of labels is not modelled.
  - A direction string outside the table is kept as `Unrecognized`.
  - The backend rejects it with "Invalid direction".
  - The frontend `directionVectors` lookup of such a tag throws. The requires of `MockData.ApplyDirection` and `App.DirectionSelect` exclude that case.
- The frontend `placeStar` with a row off the board throws on `board[row]`. The requires of `MockData.PlaceStar` and `App.CellClick` exclude that case; a column off the board is modelled.
- After a frontend undo, the restored state also carries the history entry's `action` and `timestamp` properties. These are never read, so they are not modelled.
- React state scheduling: each handler is one sequential step, and `prev` in `setGameState` is the state the handler read.
- Pydantic validation and serialisation (`.dict()`, `GameState(**doc)`): library behaviour. Boards are always 6×6 in the model, while the Python counting helpers would also walk boards of other shapes.
- `maxDirections` is carried but read by no engine code. The settings ranges of the sliders are not enforced anywhere in the engine, so no precondition imposes them.
- Integers are unbounded. The values the engines compute stay small (the round is at most one more than the number of direction moves, the counts are at most 36), and the settings, which may be any integers, are only compared, so neither Python nor JavaScript arithmetic overflows.
- React's deferred state updates: each handler of `App.StarDirectionGame` commits its result at once, so `HandleSettingsChange` followed by `ResetGame` (`App.StarDirectionGame.ApplySettings`) starts the game with the new settings. The one Apply click, whose `resetGame` reads the settings of the render before the change, is modelled separately as `App.ApplySettingsAsWritten`.
- `Direction.Unrecognized` is meant for strings other than the eight names; the type does not enforce that, and `Unrecognized("N")` stands for no string the source can receive.

## Findings

| source | as written | input that shows it | evidently intended | confidence | as-written member | corrected member |
|---|---|---|---|---|---|---|
| frontend/src/components/GameSettings.jsx:17-21, frontend/src/App.js:103-118 | Apply calls `onSettingsChange(settings)` and then `onNewGame()` in one click; `resetGame` reads `gameSettings` from the render before the change, so the new game keeps the old settings | stored settings {8, 1, 8}, chosen {4, 1, 8}: the new game has 8 rounds | the new game uses the chosen settings, as the notice "New game started with updated settings" says | not executed; follows from React's state semantics | `App.ApplySettingsAsWritten`, `App.ApplySettingsKeepsOldRounds` | `App.ApplySettingsIntended`, `App.StarDirectionGame.ApplySettings` |
