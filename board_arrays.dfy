/**
 * The mutable board of src/brain/move.ts: `Board` there is an array of rows that
 * `movePiece` and `promote` copy with `getDeepCopiedBoard` and then write cell by
 * cell.  Here it is an 8x8 `array2`, read back as a `Squares.Board` value by
 * `Contents`.
 */
module BoardArrays {
  import opened Wrappers
  import opened Types
  import opened Squares

  type Grid = array2<Option<Piece>>

  predicate IsBoard(g: Grid)
  {
    g.Length0 == 8 && g.Length1 == 8
  }

  /** The board value the array currently holds. */
  function Contents(g: Grid): (b: Board)
    reads g
    requires IsBoard(g)
    ensures forall i, j | 0 <= i < 8 && 0 <= j < 8 :: b[i][j] == g[i, j]
  {
    seq(8, i reads g requires 0 <= i < 8 => seq(8, j reads g requires 0 <= j < 8 => g[i, j]))
  }

  /** `board[x][y]`, with `undefined` (here `None`) for a square off the board. */
  function Cell(g: Grid, p: Position): (c: Option<Piece>)
    reads g
    requires IsBoard(g)
    ensures c == At(Contents(g), p)
  {
    if IsSquareWithInBounds(p) then g[p.x, p.y] else None
  }

  /** `isSquareEmpty(board, p)`: on the board and holding no piece. */
  function IsCellEmpty(g: Grid, p: Position): (e: bool)
    reads g
    requires IsBoard(g)
    ensures e == IsSquareEmpty(Contents(g), p)
  {
    IsSquareWithInBounds(p) && g[p.x, p.y].None?
  }

  /** Two arrays agreeing on every cell hold the same board. */
  lemma SameContents(g: Grid, h: Grid)
    requires IsBoard(g) && IsBoard(h)
    requires forall i, j | 0 <= i < 8 && 0 <= j < 8 :: g[i, j] == h[i, j]
    ensures Contents(g) == Contents(h)
  {
    BoardExtensionality(Contents(g), Contents(h));
  }

  /** `newBoard[p.x][p.y] = c`; a write off the board is dropped. */
  method Write(g: Grid, p: Position, c: Option<Piece>)
    requires IsBoard(g)
    modifies g
    ensures Contents(g) == Put(old(Contents(g)), p, c)
  {
    ghost var before := Contents(g);
    if IsSquareWithInBounds(p) {
      g[p.x, p.y] := c;
    }
    forall q | IsSquareWithInBounds(q)
      ensures At(Contents(g), q) == At(Put(before, p, c), q)
    {
    }
    BoardExtensionality(Contents(g), Put(before, p, c));
  }

  /** `getDeepCopiedBoard`: a fresh array holding the same pieces. */
  method GetDeepCopiedBoard(board: Grid) returns (newBoard: Grid)
    requires IsBoard(board)
    ensures fresh(newBoard) && IsBoard(newBoard)
    ensures Contents(newBoard) == Contents(board)
  {
    newBoard := new Option<Piece>[8, 8];
    for i := 0 to 8
      invariant forall i', j | 0 <= i' < i && 0 <= j < 8 :: newBoard[i', j] == board[i', j]
    {
      for j := 0 to 8
        invariant forall i', j' | 0 <= i' < i && 0 <= j' < 8 :: newBoard[i', j'] == board[i', j']
        invariant forall j' | 0 <= j' < j :: newBoard[i, j'] == board[i, j']
      {
        newBoard[i, j] := board[i, j];
      }
    }
    SameContents(newBoard, board);
  }
}
