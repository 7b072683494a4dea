/**
 * The end-of-game tests of src/brain/move.ts, `isKingCheckMate` and `isAnyMoveLeft`.
 * Both walk the list `getSameColoredPieces` returns and call `getValidMoves`
 * without a history, so an en passant capture never counts as a way out.
 */
module Terminal {
  import opened Types
  import opened Squares
  import opened Safety
  import opened Legal

  /** The piece at `q` has at least one valid move (judged without history). */
  predicate CanMove(b: Board, q: Position)
  {
    |GetValidMoves(b, q, [])| > 0
  }

  /** `isKingCheckMate`: no piece of `color` has a valid move. */
  predicate IsKingCheckMate(b: Board, color: Color)
  {
    var pieces := GetSameColoredPieces(b, color);
    forall i | 0 <= i < |pieces| :: !CanMove(b, pieces[i].position)
  }

  /** `isAnyMoveLeft`: some piece of `color` has a valid move. */
  predicate IsAnyMoveLeft(b: Board, color: Color)
  {
    var pieces := GetSameColoredPieces(b, color);
    exists i | 0 <= i < |pieces| :: CanMove(b, pieces[i].position)
  }

  /** Some square of the board holds a piece of `color` that can move. */
  ghost predicate SomeSquareCanMove(b: Board, color: Color)
  {
    exists q :: IsSquareWithInBounds(q) && HasColor(b, color, q) && CanMove(b, q)
  }

  // ---------------------------------------------------------------------------
  // Properties

  /** `isAnyMoveLeft` is the negation of `isKingCheckMate`. */
  lemma AnyMoveLeftIsNotCheckMate(b: Board, color: Color)
    ensures IsAnyMoveLeft(b, color) == !IsKingCheckMate(b, color)
  {
  }

  /**
   * Both tests are about the board, not about the list: a move is left exactly
   * when some square holding a piece of `color` offers a valid move.
   */
  lemma AnyMoveLeftExact(b: Board, color: Color)
    ensures IsAnyMoveLeft(b, color) <==> SomeSquareCanMove(b, color)
    ensures IsKingCheckMate(b, color) <==> !SomeSquareCanMove(b, color)
  {
    SomePieceSatisfies(b, color, q => CanMove(b, q));
  }

  /** A side with no pieces on the board is reported as mated (and has no move left). */
  lemma NoPiecesIsCheckMate(b: Board, color: Color)
    requires forall q | IsSquareWithInBounds(q) :: !HasColor(b, color, q)
    ensures IsKingCheckMate(b, color) && !IsAnyMoveLeft(b, color)
  {
    AnyMoveLeftExact(b, color);
  }
}
