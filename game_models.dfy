/** The shapes of the game's records (backend/models/game_models.py) and the values
    both engines share: cells, compass directions, phases, settings and snapshots. */
module GameModels {

  datatype Option<+T> = None | Some(value: T)

  /** The three cell tags 'empty', 'star' and 'circle'. */
  datatype Cell = Empty | Star | Circle

  /** The eight compass tags; any other string a caller may send is kept as Unrecognized.
      An Unrecognized tag stands for a string that is none of the eight names: the type
      does not enforce it, and Unrecognized("N") stands for no string the source receives. */
  datatype Direction = N | S | E | W | NE | NW | SE | SW | Unrecognized(tag: string)

  /** The phase tags 'placement' (Player 1 acts) and 'direction' (Player 2 acts). */
  datatype Phase = PlacementPhase | DirectionPhase

  /** A board is a list of rows; every board of the game has 6 rows of 6 cells. */
  type Board = seq<seq<Cell>>

  predicate InBounds(r: int, c: int) {
    0 <= r < 6 && 0 <= c < 6
  }

  predicate WellFormed(b: Board) {
    |b| == 6 && forall r :: 0 <= r < 6 ==> |b[r]| == 6
  }

  datatype GameSettings = GameSettings(numberOfRounds: int, emptySquaresToWin: int, maxDirections: int)

  /** GameSettings() with every field at its declared default. */
  const DefaultSettings := GameSettings(8, 1, 8)

  /** The default list of available directions, in declaration order. */
  const AllDirections: seq<Direction> := [N, S, E, W, NE, NW, SE, SW]

  /** The game fields of a state: what a snapshot records and what undo brings back. */
  datatype Snapshot = Snapshot(
    board: Board,
    currentPlayer: int,
    gamePhase: Phase,
    round: int,
    availableDirections: seq<Direction>,
    winner: Option<int>,
    starsPlaced: int,
    settings: GameSettings)

  /** The `action` label of a history entry, kept as its two parameters rather than as text. */
  datatype Action = StarPlaced(row: int, col: int) | DirectionSelected(direction: Direction)

  /** A history entry: the game fields of the state before a move plus the move's label. */
  datatype GameHistoryEntry = GameHistoryEntry(snapshot: Snapshot, action: Action)

  /** The default board factory: 6 rows of 6 'empty' cells. */
  function DefaultBoard(): (b: Board)
    ensures WellFormed(b)
    ensures forall r, c :: InBounds(r, c) ==> b[r][c] == Empty
  {
    seq(6, _ => seq(6, _ => Empty))
  }

  /** The value held by a 6 by 6 grid of cells. */
  function Grid(a: array2<Cell>): (b: Board)
    reads a
    requires a.Length0 == 6 && a.Length1 == 6
    ensures WellFormed(b)
    ensures forall r, c :: InBounds(r, c) ==> b[r][c] == a[r, c]
  {
    seq(6, r requires 0 <= r < 6 reads a => seq(6, c requires 0 <= c < 6 reads a => a[r, c]))
  }

  /** Two 6 by 6 boards that agree on every cell are the same board. */
  lemma BoardsEqual(a: Board, b: Board)
    requires WellFormed(a) && WellFormed(b)
    requires forall r, c :: InBounds(r, c) ==> a[r][c] == b[r][c]
    ensures a == b
  {
    forall r | 0 <= r < 6
      ensures a[r] == b[r]
    {
      assert forall c :: 0 <= c < 6 ==> a[r][c] == b[r][c];
    }
  }

  /** The backend's mutable game record. Its board is updated cell by cell in place;
      id, createdAt and updatedAt are not part of this model. */
  class GameState {
    var board: array2<Cell>
    var currentPlayer: int
    var gamePhase: Phase
    var round: int
    var availableDirections: seq<Direction>
    var winner: Option<int>
    var starsPlaced: int
    var gameHistory: seq<GameHistoryEntry>
    var settings: GameSettings

    /** The board is a 6 by 6 grid and every recorded snapshot holds a 6 by 6 board. */
    ghost predicate Valid()
      reads this
    {
      && board.Length0 == 6 && board.Length1 == 6
      && forall i :: 0 <= i < |gameHistory| ==> WellFormed(gameHistory[i].snapshot.board)
    }

    /** GameState(board=..., settings=...): the given board and settings, every other field at its default. */
    constructor (board: array2<Cell>, settings: GameSettings)
      requires board.Length0 == 6 && board.Length1 == 6
      ensures Valid()
      ensures this.board == board && this.settings == settings
      ensures currentPlayer == 1 && gamePhase == PlacementPhase && round == 1
      ensures availableDirections == AllDirections && winner == None
      ensures starsPlaced == 0 && gameHistory == []
    {
      this.board := board;
      this.settings := settings;
      currentPlayer := 1;
      gamePhase := PlacementPhase;
      round := 1;
      availableDirections := AllDirections;
      winner := None;
      starsPlaced := 0;
      gameHistory := [];
    }
  }
}
