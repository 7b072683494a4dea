/**
 * The board model of src/brain/move.ts: an 8x8 grid of optional pieces, the two
 * square probes, and the cell read and cell write that every operation uses.
 */
module Squares {
  import opened Wrappers
  import opened Types

  /** Every board of the engine has 8 rows of 8 cells. */
  predicate IsGrid(g: seq<seq<Option<Piece>>>)
  {
    |g| == 8 && forall i | 0 <= i < |g| :: |g[i]| == 8
  }

  type Board = g: seq<seq<Option<Piece>>> | IsGrid(g) witness seq(8, i => seq(8, j => None))

  /** `isSquareWithInBounds`. */
  predicate IsSquareWithInBounds(p: Position)
  {
    p.x < 8 && p.x >= 0 && p.y < 8 && p.y >= 0
  }

  /**
   * The read `board[x][y]`.  Off the board it gives `None`: JavaScript yields
   * `undefined`, which every caller treats like an empty cell.
   */
  function At(b: Board, p: Position): (c: Option<Piece>)
    ensures c.Some? ==> IsSquareWithInBounds(p)
    ensures IsSquareWithInBounds(p) ==> c == b[p.x][p.y]
  {
    if IsSquareWithInBounds(p) then b[p.x][p.y] else None
  }

  /** `isSquareEmpty`: in bounds and holding `null`. */
  predicate IsSquareEmpty(b: Board, p: Position)
  {
    IsSquareWithInBounds(p) && b[p.x][p.y] == None
  }

  /** The probes never fail: an off-board square is neither empty nor occupied. */
  lemma ProbesAgree(b: Board, p: Position)
    ensures IsSquareEmpty(b, p) <==> IsSquareWithInBounds(p) && At(b, p).None?
    ensures !IsSquareWithInBounds(p) ==> !IsSquareEmpty(b, p) && At(b, p).None?
  {
  }

  /**
   * The write `newBoard[x][y] = c` on a board copy; a write off the board is dropped.
   * The only such write the engine makes is the castling write of a corner piece
   * to column -1 or 8 (see README, "Left out").
   */
  function Put(b: Board, p: Position, c: Option<Piece>): (r: Board)
    ensures forall q {:trigger At(r, q)} :: At(r, q) == if q == p && IsSquareWithInBounds(p) then c else At(b, q)
  {
    if IsSquareWithInBounds(p) then b[p.x := b[p.x][p.y := c]] else b
  }

  /** The occupant of `q` belongs to the side of `piece`. */
  predicate IsFriend(b: Board, piece: Piece, q: Position)
  {
    At(b, q).Some? && At(b, q).value.color == piece.color
  }

  /** The occupant of `q` belongs to the other side. */
  predicate IsEnemy(b: Board, piece: Piece, q: Position)
  {
    At(b, q).Some? && At(b, q).value.color != piece.color
  }

  /** `{x: x + move.dx, y: y + move.dy}`. */
  function Shift(p: Position, m: PieceMove): Position
  {
    Position(p.x + m.dx, p.y + m.dy)
  }

  /** Two boards are equal exactly when they agree on every square. */
  lemma {:induction false} BoardExtensionality(a: Board, b: Board)
    requires forall q | IsSquareWithInBounds(q) :: At(a, q) == At(b, q)
    ensures a == b
  {
    forall i | 0 <= i < 8 ensures a[i] == b[i] {
      forall j | 0 <= j < 8 ensures a[i][j] == b[i][j] {
        assert At(a, Position(i, j)) == At(b, Position(i, j));
      }
    }
  }
}
