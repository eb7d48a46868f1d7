/** The rules both engines implement, stated once as reference definitions: the
    direction table, the geometry of a ray, the ray fill, cell counts, the winner rule
    and the facts every reachable game state satisfies. */
module Rules {
  import opened GameModels
  import opened Lists

  predicate IsCompass(d: Direction) {
    !d.Unrecognized?
  }

  /** The unit step (delta row, delta column) of each of the eight directions. */
  function Vector(d: Direction): (v: (int, int))
    requires IsCompass(d)
    ensures -1 <= v.0 <= 1 && -1 <= v.1 <= 1 && v != (0, 0)
  {
    match d
    case N => (-1, 0)
    case S => (1, 0)
    case E => (0, 1)
    case W => (0, -1)
    case NE => (-1, 1)
    case NW => (-1, -1)
    case SE => (1, 1)
    case SW => (1, -1)
  }

  /** The default list of available directions holds each of the eight compass tags,
      the keys of the direction table, exactly once. */
  lemma AllDirectionsAreTheCompass()
    ensures |AllDirections| == 8 && NoDuplicates(AllDirections)
    ensures forall i :: 0 <= i < |AllDirections| ==> IsCompass(AllDirections[i])
    ensures forall d :: IsCompass(d) ==> d in AllDirections
  {
  }

  /** k times the unit component u, written without multiplication. */
  function Offset(k: int, u: int): int {
    if u > 0 then k else if u < 0 then -k else 0
  }

  /** p + k * u: the coordinate reached after k steps of u. */
  function Along(p: int, k: int, u: int): int {
    p + k * u
  }

  /** The number of steps from (sr, sc) to (r, c) along d, read off a nonzero component. */
  function Steps(d: Direction, sr: int, sc: int, r: int, c: int): int
    requires IsCompass(d)
  {
    var (dr, dc) := Vector(d);
    if dr != 0 then Offset(r - sr, dr) else Offset(c - sc, dc)
  }

  /** (r, c) is one or more steps along d from (sr, sc). Nothing on the way blocks a ray. */
  predicate OnRay(d: Direction, sr: int, sc: int, r: int, c: int)
    requires IsCompass(d)
  {
    var (dr, dc) := Vector(d);
    var k := Steps(d, sr, sc, r, c);
    k >= 1 && r == sr + Offset(k, dr) && c == sc + Offset(k, dc)
  }

  lemma OffsetIsProduct(k: int, u: int)
    requires -1 <= u <= 1
    ensures Offset(k, u) == k * u
  {
  }

  /** OnRay is exactly "some number k >= 1 of unit steps of d leads from (sr, sc) to (r, c)". */
  lemma OnRayIsWalk(d: Direction, sr: int, sc: int, r: int, c: int)
    requires IsCompass(d)
    ensures OnRay(d, sr, sc, r, c) <==>
      exists k :: k >= 1 && r == Along(sr, k, Vector(d).0) && c == Along(sc, k, Vector(d).1)
  {
    var (dr, dc) := Vector(d);
    if OnRay(d, sr, sc, r, c) {
      var k := Steps(d, sr, sc, r, c);
      OffsetIsProduct(k, dr);
      OffsetIsProduct(k, dc);
      assert r == Along(sr, k, dr) && c == Along(sc, k, dc);
    }
    if exists k :: k >= 1 && r == Along(sr, k, dr) && c == Along(sc, k, dc) {
      var k :| k >= 1 && r == Along(sr, k, dr) && c == Along(sc, k, dc);
      OffsetIsProduct(k, dr);
      OffsetIsProduct(k, dc);
      assert Steps(d, sr, sc, r, c) == k;
    }
  }

  /** A walk that has left the board after k steps has already passed every cell of its ray. */
  lemma RayLeavesBoard(d: Direction, sr: int, sc: int, k: int, r: int, c: int)
    requires IsCompass(d) && InBounds(sr, sc) && k >= 1
    requires !InBounds(sr + Offset(k, Vector(d).0), sc + Offset(k, Vector(d).1))
    requires InBounds(r, c) && OnRay(d, sr, sc, r, c)
    ensures Steps(d, sr, sc, r, c) < k
  {
  }

  /** Some star with row-major index sr * 6 + sc below n has (r, c) on its ray. */
  ghost predicate LitBefore(b: Board, d: Direction, n: int, r: int, c: int)
    requires WellFormed(b) && IsCompass(d)
  {
    exists sr, sc :: InBounds(sr, sc) && sr * 6 + sc < n && b[sr][sc] == Star && OnRay(d, sr, sc, r, c)
  }

  /** Some star of the board has (r, c) on its ray. */
  ghost predicate Lit(b: Board, d: Direction, r: int, c: int)
    requires WellFormed(b) && IsCompass(d)
  {
    LitBefore(b, d, 36, r, c)
  }

  /** Cell (r, c) once the rays of the stars with index below n have been drawn. */
  ghost function PartialFill(b: Board, d: Direction, n: int, r: int, c: int): Cell
    requires WellFormed(b) && IsCompass(d) && InBounds(r, c)
  {
    if b[r][c] == Empty && LitBefore(b, d, n, r, c) then Circle else b[r][c]
  }

  /** Taking the star at (row, col) into account adds exactly its ray. */
  lemma LitBeforeStep(b: Board, d: Direction, row: int, col: int, r: int, c: int)
    requires WellFormed(b) && IsCompass(d) && InBounds(row, col)
    ensures LitBefore(b, d, row * 6 + col + 1, r, c) <==>
      LitBefore(b, d, row * 6 + col, r, c) || (b[row][col] == Star && OnRay(d, row, col, r, c))
  {
  }

  /** Every cell after the rays of the stars with index below n + 1 have been drawn,
      given the cells after the rays below n and the fill step for the star at index n. */
  lemma PartialFillStep(b: Board, d: Direction, row: int, col: int)
    requires WellFormed(b) && IsCompass(d) && InBounds(row, col)
    ensures forall r, c :: InBounds(r, c) ==>
      PartialFill(b, d, row * 6 + col + 1, r, c) ==
        if b[row][col] == Star && PartialFill(b, d, row * 6 + col, r, c) == Empty && OnRay(d, row, col, r, c)
        then Circle else PartialFill(b, d, row * 6 + col, r, c)
  {
    forall r, c | InBounds(r, c)
      ensures PartialFill(b, d, row * 6 + col + 1, r, c) ==
        if b[row][col] == Star && PartialFill(b, d, row * 6 + col, r, c) == Empty && OnRay(d, row, col, r, c)
        then Circle else PartialFill(b, d, row * 6 + col, r, c)
    {
      LitBeforeStep(b, d, row, col, r, c);
    }
  }

  /** applyDirection's result, cell by cell: an empty cell on the ray of some star
      becomes a circle; every other cell keeps its value. */
  ghost function FillCell(b: Board, d: Direction, r: int, c: int): Cell
    requires WellFormed(b) && IsCompass(d) && InBounds(r, c)
  {
    PartialFill(b, d, 36, r, c)
  }

  /** The reference ray fill. Stars and circles stay; an empty cell becomes a circle
      exactly when it lies on the ray of some star; nothing else changes. */
  ghost function Fill(b: Board, d: Direction): (f: Board)
    requires WellFormed(b) && IsCompass(d)
    ensures WellFormed(f)
    ensures forall r, c :: InBounds(r, c) ==>
      (b[r][c] == Star ==> f[r][c] == Star) &&
      (b[r][c] == Circle ==> f[r][c] == Circle) &&
      (b[r][c] == Empty ==> (f[r][c] == Circle <==> Lit(b, d, r, c)) && (f[r][c] == Empty <==> !Lit(b, d, r, c)))
  {
    seq(6, r requires 0 <= r < 6 => seq(6, c requires 0 <= c < 6 => FillCell(b, d, r, c)))
  }

  /** Whether a cell is lit depends only on where the stars are. */
  lemma LitDependsOnStars(b1: Board, b2: Board, d: Direction, r: int, c: int)
    requires WellFormed(b1) && WellFormed(b2) && IsCompass(d)
    requires forall i, j :: InBounds(i, j) ==> (b1[i][j] == Star <==> b2[i][j] == Star)
    ensures Lit(b1, d, r, c) <==> Lit(b2, d, r, c)
  {
  }

  /** Filling a second time with the same direction changes nothing. */
  lemma FillIdempotent(b: Board, d: Direction)
    requires WellFormed(b) && IsCompass(d)
    ensures Fill(Fill(b, d), d) == Fill(b, d)
  {
    var f := Fill(b, d);
    forall r, c | InBounds(r, c)
      ensures Fill(f, d)[r][c] == f[r][c]
    {
      LitDependsOnStars(b, f, d, r, c);
    }
    BoardsEqual(Fill(f, d), f);
  }

  /** The board with a star written at (r, c). */
  function PlaceAt(b: Board, r: int, c: int): (p: Board)
    requires WellFormed(b) && InBounds(r, c)
    ensures WellFormed(p)
    ensures forall i, j :: InBounds(i, j) ==> p[i][j] == if i == r && j == c then Star else b[i][j]
  {
    b[r := b[r][c := Star]]
  }

  /** How many cells of a row hold x. */
  function CountRow(row: seq<Cell>, x: Cell): (n: nat)
    ensures n <= |row|
  {
    if |row| == 0 then 0
    else CountRow(row[..|row| - 1], x) + (if row[|row| - 1] == x then 1 else 0)
  }

  /** How many cells of the board hold x. */
  function Count(b: Board, x: Cell): nat {
    if |b| == 0 then 0
    else Count(b[..|b| - 1], x) + CountRow(b[|b| - 1], x)
  }

  lemma {:induction false} CountRowPartition(row: seq<Cell>)
    ensures CountRow(row, Empty) + CountRow(row, Star) + CountRow(row, Circle) == |row|
  {
    if |row| > 0 {
      CountRowPartition(row[..|row| - 1]);
    }
  }

  lemma {:induction false} CountPartitionRows(b: Board)
    requires forall r :: 0 <= r < |b| ==> |b[r]| == 6
    ensures Count(b, Empty) + Count(b, Star) + Count(b, Circle) == 6 * |b|
  {
    if |b| > 0 {
      CountPartitionRows(b[..|b| - 1]);
      CountRowPartition(b[|b| - 1]);
    }
  }

  /** Empty, star and circle cells together are the 36 cells of the board. */
  lemma CountPartition(b: Board)
    requires WellFormed(b)
    ensures Count(b, Empty) + Count(b, Star) + Count(b, Circle) == 36
    ensures Count(b, Empty) <= 36 && Count(b, Star) <= 36 && Count(b, Circle) <= 36
  {
    CountPartitionRows(b);
  }

  lemma {:induction false} CountRowSameWhere(r1: seq<Cell>, r2: seq<Cell>, x: Cell)
    requires |r1| == |r2|
    requires forall i :: 0 <= i < |r1| ==> (r1[i] == x <==> r2[i] == x)
    ensures CountRow(r1, x) == CountRow(r2, x)
  {
    if |r1| > 0 {
      CountRowSameWhere(r1[..|r1| - 1], r2[..|r2| - 1], x);
    }
  }

  lemma {:induction false} CountSameWhereRows(b1: Board, b2: Board, x: Cell)
    requires |b1| == |b2| && |b1| <= 6
    requires forall r :: 0 <= r < |b1| ==> |b1[r]| == 6 && |b2[r]| == 6
    requires forall r, c :: 0 <= r < |b1| && 0 <= c < 6 ==> (b1[r][c] == x <==> b2[r][c] == x)
    ensures Count(b1, x) == Count(b2, x)
  {
    if |b1| > 0 {
      CountSameWhereRows(b1[..|b1| - 1], b2[..|b2| - 1], x);
      CountRowSameWhere(b1[|b1| - 1], b2[|b2| - 1], x);
    }
  }

  /** Two boards holding x in the same cells have the same count of x. */
  lemma CountSameWhere(b1: Board, b2: Board, x: Cell)
    requires WellFormed(b1) && WellFormed(b2)
    requires forall r, c :: InBounds(r, c) ==> (b1[r][c] == x <==> b2[r][c] == x)
    ensures Count(b1, x) == Count(b2, x)
  {
    CountSameWhereRows(b1, b2, x);
  }

  /** The ray fill leaves the number of stars as it was. */
  lemma FillKeepsStars(b: Board, d: Direction)
    requires WellFormed(b) && IsCompass(d)
    ensures Count(Fill(b, d), Star) == Count(b, Star)
  {
    CountSameWhere(Fill(b, d), b, Star);
  }

  lemma {:induction false} CountRowUpdate(row: seq<Cell>, i: int, y: Cell, x: Cell)
    requires 0 <= i < |row|
    ensures CountRow(row[i := y], x) ==
      CountRow(row, x) - (if row[i] == x then 1 else 0) + (if y == x then 1 else 0)
  {
    var n := |row|;
    if i < n - 1 {
      assert row[i := y][..n - 1] == row[..n - 1][i := y];
      CountRowUpdate(row[..n - 1], i, y, x);
    } else {
      assert row[i := y][..n - 1] == row[..n - 1];
    }
  }

  lemma {:induction false} CountUpdate(b: Board, r: int, row: seq<Cell>, x: Cell)
    requires 0 <= r < |b|
    ensures Count(b[r := row], x) == Count(b, x) - CountRow(b[r], x) + CountRow(row, x)
  {
    var n := |b|;
    if r < n - 1 {
      assert b[r := row][..n - 1] == b[..n - 1][r := row];
      CountUpdate(b[..n - 1], r, row, x);
    } else {
      assert b[r := row][..n - 1] == b[..n - 1];
    }
  }

  /** Writing a star on an empty cell adds one star and removes one empty cell. */
  lemma CountPlaceAt(b: Board, r: int, c: int)
    requires WellFormed(b) && InBounds(r, c) && b[r][c] == Empty
    ensures Count(PlaceAt(b, r, c), Star) == Count(b, Star) + 1
    ensures Count(PlaceAt(b, r, c), Empty) == Count(b, Empty) - 1
  {
    CountUpdate(b, r, b[r][c := Star], Star);
    CountRowUpdate(b[r], c, Star, Star);
    CountUpdate(b, r, b[r][c := Star], Empty);
    CountRowUpdate(b[r], c, Star, Empty);
  }

  lemma {:induction false} CountAbsentRows(b: Board, x: Cell)
    requires forall r :: 0 <= r < |b| ==> forall i :: 0 <= i < |b[r]| ==> b[r][i] != x
    ensures Count(b, x) == 0
  {
    if |b| > 0 {
      CountAbsentRows(b[..|b| - 1], x);
      CountRowAbsent(b[|b| - 1], x);
    }
  }

  lemma {:induction false} CountRowAbsent(row: seq<Cell>, x: Cell)
    requires forall i :: 0 <= i < |row| ==> row[i] != x
    ensures CountRow(row, x) == 0
  {
    if |row| > 0 {
      CountRowAbsent(row[..|row| - 1], x);
    }
  }

  /** The default board holds 36 empty cells and no star. */
  lemma DefaultBoardCounts()
    ensures Count(DefaultBoard(), Star) == 0 && Count(DefaultBoard(), Circle) == 0
    ensures Count(DefaultBoard(), Empty) == 36
  {
    var b := DefaultBoard();
    CountAbsentRows(b, Star);
    CountAbsentRows(b, Circle);
    CountPartition(b);
  }

  /** The winner rule: no winner while round <= numberOfRounds; after that Player 1
      wins when at least emptySquaresToWin cells are empty, and Player 2 otherwise. */
  function Winner(b: Board, round: int, settings: GameSettings): (w: Option<int>)
    ensures w.None? <==> round <= settings.numberOfRounds
    ensures w == Some(1) <==> round > settings.numberOfRounds && Count(b, Empty) >= settings.emptySquaresToWin
    ensures w == Some(2) <==> round > settings.numberOfRounds && Count(b, Empty) < settings.emptySquaresToWin
  {
    if round > settings.numberOfRounds then
      Some(if Count(b, Empty) >= settings.emptySquaresToWin then 1 else 2)
    else None
  }

  /** What every state the engines reach satisfies: a 6 by 6 board, Player 1 exactly in
      the placement phase and Player 2 exactly in the direction phase, a positive round,
      starsPlaced equal to the stars on the board, only compass tags available, and a
      winner only as the winner rule decides it for the board and round. */
  ghost predicate Coherent(s: Snapshot) {
    && WellFormed(s.board)
    && ((s.currentPlayer == 1 && s.gamePhase == PlacementPhase) ||
        (s.currentPlayer == 2 && s.gamePhase == DirectionPhase))
    && s.round >= 1
    && s.starsPlaced == Count(s.board, Star)
    && (forall i :: 0 <= i < |s.availableDirections| ==> IsCompass(s.availableDirections[i]))
    && (s.winner.Some? ==> s.winner == Winner(s.board, s.round, s.settings))
  }

  /** A winner is only ever recorded after the last configured round. */
  lemma CoherentWinnerAfterLastRound(s: Snapshot)
    requires Coherent(s) && s.winner.Some?
    ensures s.round > s.settings.numberOfRounds && (s.winner.value == 1 || s.winner.value == 2)
  {
  }
}
