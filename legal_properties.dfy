/** Properties of the legal-move layer of src/brain/move.ts. */
module LegalProperties {
  import opened Wrappers
  import opened Types
  import opened Squares
  import opened MoveTables
  import opened Geometry
  import opened Pseudo
  import opened Apply
  import opened Safety
  import opened Legal

  /** Without the threat check, `getSlidingMoves` is the pseudo-legal slide. */
  lemma SlidingWithoutThreatCheck(b: Board, pos: Position, h: seq<Move>)
    requires At(b, pos).Some? && At(b, pos).value.kind in {Bishop, Rook, Queen}
    ensures var piece := At(b, pos).value;
            GetSlidingMoves(piece, pos, SlidingDirections(piece.kind), b, false) == GetPseudoLegalMoves(b, pos, h)
  {
    SliderCase(b, pos, h);
  }

  /** A square with no piece has no valid moves. */
  lemma ValidEmptySource(b: Board, pos: Position, h: seq<Move>)
    requires At(b, pos).None?
    ensures GetValidMoves(b, pos, h) == []
  {
  }

  lemma ValidKnightCase(b: Board, pos: Position, h: seq<Move>)
    requires At(b, pos).Some? && At(b, pos).value.kind == Knight
    ensures var piece := At(b, pos).value;
            GetValidMoves(b, pos, h) == OffsetMoves(b, piece, pos, KnightMoves, KingSafety(b, piece, pos))
  {
  }

  lemma ValidKingCase(b: Board, pos: Position, h: seq<Move>)
    requires At(b, pos).Some? && At(b, pos).value.kind == King
    ensures GetValidMoves(b, pos, h) == KingValidMoves(b, At(b, pos).value, pos)
  {
  }

  lemma ValidPawnCase(b: Board, pos: Position, h: seq<Move>)
    requires At(b, pos).Some? && At(b, pos).value.kind == Pawn
    ensures GetValidMoves(b, pos, h) == PawnValidMoves(b, At(b, pos).value, pos, h, KingSafety(b, At(b, pos).value, pos))
  {
  }

  lemma ValidSliderCase(b: Board, pos: Position, h: seq<Move>)
    requires At(b, pos).Some? && At(b, pos).value.kind in {Bishop, Rook, Queen}
    ensures var piece := At(b, pos).value;
            GetValidMoves(b, pos, h) == SlidingMoves(b, piece, pos, SlidingDirections(piece.kind), KingSafety(b, piece, pos))
  {
  }

  /**
   * The safety filter: every valid move was accepted by `willKingBeSafeAfterMove`,
   * except a castle destination the rights allow, and the right-hand en passant
   * capture, for which the square to its left was the one simulated.
   */
  lemma ValidMoveGuarded(b: Board, pos: Position, h: seq<Move>, q: Position)
    requires At(b, pos).Some?
    requires q in GetValidMoves(b, pos, h)
    ensures var piece := At(b, pos).value;
            var row := HomeRow(piece.color);
            var oneStep := pos.x + PawnDirection(piece.color);
            WillKingBeSafeAfterMove(b, piece, pos, q)
            || (piece.kind == King && q == Position(row, 2) && CanKingCastle(b, piece.color).canCastleLeft)
            || (piece.kind == King && q == Position(row, 6) && CanKingCastle(b, piece.color).canCastleRight)
            || (piece.kind == Pawn && q == Position(oneStep, pos.y + 1) && ValidEnPassant(b, piece, pos, h, 1)
                && WillKingBeSafeAfterMove(b, piece, pos, Position(oneStep, pos.y - 1)))
  {
    var piece := At(b, pos).value;
    match piece.kind
    case Knight => LeaperGuarded(b, pos, h, q);
    case King => KingGuarded(b, pos, h, q);
    case Pawn => PawnGuarded(b, pos, h, q);
    case _ => SliderGuarded(b, pos, h, q);
  }

  lemma LeaperGuarded(b: Board, pos: Position, h: seq<Move>, q: Position)
    requires At(b, pos).Some? && At(b, pos).value.kind == Knight
    requires q in GetValidMoves(b, pos, h)
    ensures WillKingBeSafeAfterMove(b, At(b, pos).value, pos, q)
  {
    var piece := At(b, pos).value;
    ValidKnightCase(b, pos, h);
    OffsetMembership(b, piece, pos, KnightMoves, KingSafety(b, piece, pos), q);
  }

  lemma SliderGuarded(b: Board, pos: Position, h: seq<Move>, q: Position)
    requires At(b, pos).Some? && At(b, pos).value.kind in {Bishop, Rook, Queen}
    requires q in GetValidMoves(b, pos, h)
    ensures WillKingBeSafeAfterMove(b, At(b, pos).value, pos, q)
  {
    ValidSliderCase(b, pos, h);
  }

  lemma KingGuarded(b: Board, pos: Position, h: seq<Move>, q: Position)
    requires At(b, pos).Some? && At(b, pos).value.kind == King
    requires q in GetValidMoves(b, pos, h)
    ensures var piece := At(b, pos).value;
            var row := HomeRow(piece.color);
            WillKingBeSafeAfterMove(b, piece, pos, q)
            || (q == Position(row, 2) && CanKingCastle(b, piece.color).canCastleLeft)
            || (q == Position(row, 6) && CanKingCastle(b, piece.color).canCastleRight)
  {
    var piece := At(b, pos).value;
    var safe := KingSafety(b, piece, pos);
    ValidKingCase(b, pos, h);
    if q in OffsetMoves(b, piece, pos, KingMoves, safe) {
      OffsetMembership(b, piece, pos, KingMoves, safe, q);
    }
  }

  /**
   * The verdict accepted the pawn's candidate `q`: the move to `q` was simulated
   * safe, or `q` is the right-hand en passant square and the move to its left
   * neighbour was the one simulated safe.
   */
  predicate PawnAccepted(b: Board, piece: Piece, pos: Position, h: seq<Move>, q: Position)
  {
    var oneStep := pos.x + PawnDirection(piece.color);
    WillKingBeSafeAfterMove(b, piece, pos, q)
    || (q == Position(oneStep, pos.y + 1) && ValidEnPassant(b, piece, pos, h, 1)
        && WillKingBeSafeAfterMove(b, piece, pos, Position(oneStep, pos.y - 1)))
  }

  lemma PawnGuarded(b: Board, pos: Position, h: seq<Move>, q: Position)
    requires At(b, pos).Some? && At(b, pos).value.kind == Pawn
    requires q in GetValidMoves(b, pos, h)
    ensures PawnAccepted(b, At(b, pos).value, pos, h, q)
  {
    PawnCandidate(b, pos, h, q);
    PawnCandidateGuarded(b, At(b, pos).value, pos, h, q);
  }

  lemma PawnCandidate(b: Board, pos: Position, h: seq<Move>, q: Position)
    requires At(b, pos).Some? && At(b, pos).value.kind == Pawn
    requires q in GetValidMoves(b, pos, h)
    ensures q in PawnValidMoves(b, At(b, pos).value, pos, h, KingSafety(b, At(b, pos).value, pos))
  {
    ValidPawnCase(b, pos, h);
  }

  lemma PawnCandidateGuarded(b: Board, piece: Piece, pos: Position, h: seq<Move>, q: Position)
    requires q in PawnValidMoves(b, piece, pos, h, KingSafety(b, piece, pos))
    ensures PawnAccepted(b, piece, pos, h, q)
  {
    var oneStep := pos.x + PawnDirection(piece.color);
    PawnGuardedFor(b, piece, pos, h, KingSafety(b, piece, pos), q);
    SafetyVerdict(b, piece, pos, q);
    SafetyVerdict(b, piece, pos, Position(oneStep, pos.y - 1));
  }

  /** The pawn candidates pass the verdict `safe`, whatever it is (up to the right-hand en passant quirk). */
  lemma PawnGuardedFor(b: Board, piece: Piece, pos: Position, h: seq<Move>, safe: Position -> bool, q: Position)
    requires q in PawnValidMoves(b, piece, pos, h, safe)
    ensures var oneStep := pos.x + PawnDirection(piece.color);
            safe(q)
            || (q == Position(oneStep, pos.y + 1) && ValidEnPassant(b, piece, pos, h, 1) && safe(Position(oneStep, pos.y - 1)))
  {
  }

  lemma SafetyVerdict(b: Board, piece: Piece, pos: Position, q: Position)
    ensures KingSafety(b, piece, pos)(q) == WillKingBeSafeAfterMove(b, piece, pos, q)
  {
  }

  /**
   * Knight moves are exactly the in-bounds squares at the table offsets that hold
   * no friendly piece and leave the mover's king safe.
   */
  lemma KnightValidMembership(b: Board, pos: Position, h: seq<Move>, q: Position)
    requires At(b, pos).Some? && At(b, pos).value.kind == Knight
    ensures var piece := At(b, pos).value;
            q in GetValidMoves(b, pos, h) <==>
            exists i :: 0 <= i < |KnightMoves| && q == Shift(pos, KnightMoves[i]) && IsSquareWithInBounds(q)
                        && !IsFriend(b, piece, q) && WillKingBeSafeAfterMove(b, piece, pos, q)
  {
    var piece := At(b, pos).value;
    ValidKnightCase(b, pos, h);
    OffsetMembership(b, piece, pos, KnightMoves, KingSafety(b, piece, pos), q);
  }

  /**
   * King moves are exactly the castle destinations the rights allow and the
   * in-bounds single steps that hold no friendly piece and leave the king safe.
   */
  lemma KingValidMembership(b: Board, pos: Position, h: seq<Move>, q: Position)
    requires At(b, pos).Some? && At(b, pos).value.kind == King
    ensures var piece := At(b, pos).value;
            var rights := CanKingCastle(b, piece.color);
            var row := HomeRow(piece.color);
            q in GetValidMoves(b, pos, h) <==>
            (rights.canCastleLeft && q == Position(row, 2))
            || (rights.canCastleRight && q == Position(row, 6))
            || exists i :: 0 <= i < |KingMoves| && q == Shift(pos, KingMoves[i]) && IsSquareWithInBounds(q)
                           && !IsFriend(b, piece, q) && WillKingBeSafeAfterMove(b, piece, pos, q)
  {
    var piece := At(b, pos).value;
    ValidKingCase(b, pos, h);
    OffsetMembership(b, piece, pos, KingMoves, KingSafety(b, piece, pos), q);
  }

  /** The castle destinations are offered whenever the rights allow them, with no safety call of their own. */
  lemma CastleDestinationsOffered(b: Board, pos: Position, h: seq<Move>)
    requires At(b, pos).Some? && At(b, pos).value.kind == King
    ensures var piece := At(b, pos).value;
            var rights := CanKingCastle(b, piece.color);
            var row := HomeRow(piece.color);
            (rights.canCastleLeft ==> Position(row, 2) in GetValidMoves(b, pos, h))
            && (rights.canCastleRight ==> Position(row, 6) in GetValidMoves(b, pos, h))
  {
  }

  /**
   * The castle rights in full: both flags need a king of the colour that has not
   * moved and is not in check; the left flag an unmoved corner piece at column 0,
   * column 1 empty and columns 2 and 3 empty and safe; the right flag an unmoved
   * corner piece at column 7 and columns 5 and 6 empty and safe.
   */
  lemma CastleRightsExact(b: Board, color: Color)
    ensures var r := CanKingCastle(b, color);
            var king := GetKing(b, color);
            var row := HomeRow(color);
            var kingReady := king.Some? && !HasMoved(king.value.piece) && !IsKingInCheck(b, king.value.position);
            (r.canCastleLeft <==>
               kingReady && UnmovedCorner(b, Position(row, 0)) && IsSquareEmpty(b, Position(row, 1))
               && (forall c | 2 <= c <= 3 ::
                     IsSquareEmpty(b, Position(row, c)) && WillKingBeSafeAfterMove(b, king.value.piece, king.value.position, Position(row, c))))
            && (r.canCastleRight <==>
               kingReady && UnmovedCorner(b, Position(row, 7))
               && (forall c | 5 <= c <= 6 ::
                     IsSquareEmpty(b, Position(row, c)) && WillKingBeSafeAfterMove(b, king.value.piece, king.value.position, Position(row, c))))
  {
    var king := GetKing(b, color);
    GetKingExact(b, color);
    if king.Some? {
      var row := HomeRow(color);
      CorridorExact(b, king.value, LeftSquares(row), row, 2);
      CorridorExact(b, king.value, RightSquares(row), row, 5);
    }
  }

  /** A two-square corridor is safe exactly when both of its squares are empty and safe. */
  lemma CorridorExact(b: Board, king: PieceWithPosition, squares: seq<Position>, row: int, lo: int)
    requires squares == [Position(row, lo), Position(row, lo + 1)]
    ensures CorridorSafe(b, king, squares) <==>
            forall c | lo <= c <= lo + 1 ::
              IsSquareEmpty(b, Position(row, c)) && WillKingBeSafeAfterMove(b, king.piece, king.position, Position(row, c))
  {
    assert forall c | lo <= c <= lo + 1 :: Position(row, c) == squares[c - lo];
  }

  /**
   * With the threat check a slide passes over an enemy whose capture is unsafe: if
   * the first square along a direction holds such an enemy and the second is empty
   * and safe, the second is a valid move although it is not a pseudo-legal one, so
   * `getValidMoves` is not a subset of `getPseudoLegalMoves` for sliding pieces.
   */
  lemma ValidSliderPassesUnsafeCapture(b: Board, pos: Position, h: seq<Move>, i: nat)
    requires At(b, pos).Some? && At(b, pos).value.kind in {Bishop, Rook, Queen}
    requires i < |SlidingDirections(At(b, pos).value.kind)|
    requires var piece := At(b, pos).value;
             var d := SlidingDirections(piece.kind)[i];
             IsEnemy(b, piece, Walk(pos, d, 1)) && !WillKingBeSafeAfterMove(b, piece, pos, Walk(pos, d, 1))
             && IsSquareEmpty(b, Walk(pos, d, 2)) && WillKingBeSafeAfterMove(b, piece, pos, Walk(pos, d, 2))
    ensures var t := Walk(pos, SlidingDirections(At(b, pos).value.kind)[i], 2);
            t in GetValidMoves(b, pos, h) && t !in GetPseudoLegalMoves(b, pos, h)
  {
    var piece := At(b, pos).value;
    var dirs := SlidingDirections(piece.kind);
    var d := dirs[i];
    var safe := KingSafety(b, piece, pos);
    var t := Walk(pos, d, 2);
    assert Walk(pos, d, 1) == Shift(pos, d);
    assert !safe(Shift(pos, d)) && Lands(b, piece, t, safe);
    RayPassesRefusedEnemy(b, piece, pos, d, safe);
    ValidSliderCase(b, pos, h);
    SlidingMembership(b, piece, pos, dirs, safe, t);
    SlideBlockedBeyond(b, pos, h, i);
  }

  /**
   * Every valid slide lies `k >= 1` steps along a table direction, may be landed on
   * safely, and passes only over empty squares or enemies whose capture is unsafe.
   */
  lemma SliderValidSound(b: Board, pos: Position, h: seq<Move>, q: Position) returns (i: nat, k: nat)
    requires At(b, pos).Some? && At(b, pos).value.kind in {Bishop, Rook, Queen}
    requires q in GetValidMoves(b, pos, h)
    ensures var piece := At(b, pos).value;
            var dirs := SlidingDirections(piece.kind);
            var safe := KingSafety(b, piece, pos);
            i < |dirs| && 1 <= k && q == Walk(pos, dirs[i], k)
            && Lands(b, piece, q, safe) && OpenUpTo(b, piece, pos, dirs[i], k, safe)
  {
    var piece := At(b, pos).value;
    var dirs := SlidingDirections(piece.kind);
    var safe := KingSafety(b, piece, pos);
    ValidSliderCase(b, pos, h);
    SlidingMembership(b, piece, pos, dirs, safe, q);
    i :| 0 <= i < |dirs| && q in Ray(b, piece, pos, dirs[i], safe);
    k := RaySound(b, piece, pos, dirs[i], safe, q);
  }

  /** Conversely, every such square is a valid slide. */
  lemma SliderValidComplete(b: Board, pos: Position, h: seq<Move>, i: nat, k: nat)
    requires At(b, pos).Some? && At(b, pos).value.kind in {Bishop, Rook, Queen}
    requires var piece := At(b, pos).value;
             var dirs := SlidingDirections(piece.kind);
             var safe := KingSafety(b, piece, pos);
             i < |dirs| && 1 <= k && Lands(b, piece, Walk(pos, dirs[i], k), safe) && OpenUpTo(b, piece, pos, dirs[i], k, safe)
    ensures Walk(pos, SlidingDirections(At(b, pos).value.kind)[i], k) in GetValidMoves(b, pos, h)
  {
    var piece := At(b, pos).value;
    var dirs := SlidingDirections(piece.kind);
    var safe := KingSafety(b, piece, pos);
    var q := Walk(pos, dirs[i], k);
    ValidSliderCase(b, pos, h);
    RayComplete(b, piece, pos, dirs[i], safe, k);
    SlidingMembership(b, piece, pos, dirs, safe, q);
  }

  /**
   * The right-hand en passant capture is offered when the square to its left is
   * safe to move to, whatever the verdict on the capture square itself.
   */
  lemma RightEnPassantJudgedOnLeft(b: Board, pos: Position, h: seq<Move>)
    requires At(b, pos).Some? && At(b, pos).value.kind == Pawn
    requires var piece := At(b, pos).value;
             ValidEnPassant(b, piece, pos, h, 1)
             && WillKingBeSafeAfterMove(b, piece, pos, Position(pos.x + PawnDirection(piece.color), pos.y - 1))
    ensures Position(pos.x + PawnDirection(At(b, pos).value.color), pos.y + 1) in GetValidMoves(b, pos, h)
  {
  }

  /**
   * The shape of a pawn's valid move `q`, `judged` being the verdict on the move
   * to `q`: a straight move lands on an empty square, was judged safe and is one
   * step, or two from an unmoved pawn over an empty square; a diagonal move is one
   * row forward and one column aside onto an enemy or as an en passant capture, and
   * was judged safe unless it is the right-hand en passant capture.
   */
  predicate PawnValidShape(b: Board, piece: Piece, pos: Position, h: seq<Move>, q: Position, judged: bool)
  {
    var dir := PawnDirection(piece.color);
    (q.y == pos.y ==>
       IsSquareEmpty(b, q) && judged
       && (q.x == pos.x + dir
           || (q.x == pos.x + 2 * dir && !HasMoved(piece) && IsSquareEmpty(b, Position(pos.x + dir, pos.y)))))
    && (q.y != pos.y ==>
       q.x == pos.x + dir
       && ((q.y == pos.y - 1 && judged && (IsEnemy(b, piece, q) || ValidEnPassant(b, piece, pos, h, -1)))
           || (q.y == pos.y + 1 && ((IsEnemy(b, piece, q) && judged) || ValidEnPassant(b, piece, pos, h, 1)))))
  }

  lemma PawnShapeFor(b: Board, piece: Piece, pos: Position, h: seq<Move>, safe: Position -> bool, q: Position)
    requires q in PawnValidMoves(b, piece, pos, h, safe)
    ensures PawnValidShape(b, piece, pos, h, q, safe(q))
  {
  }

  /** The pawn's valid moves have the shape of its pseudo-legal ones, en passant now tied to the last move's piece. */
  lemma PawnValidSound(b: Board, pos: Position, h: seq<Move>, q: Position)
    requires At(b, pos).Some? && At(b, pos).value.kind == Pawn
    requires q in GetValidMoves(b, pos, h)
    ensures PawnValidShape(b, At(b, pos).value, pos, h, q, WillKingBeSafeAfterMove(b, At(b, pos).value, pos, q))
  {
    var piece := At(b, pos).value;
    PawnCandidate(b, pos, h, q);
    PawnShapeFor(b, piece, pos, h, KingSafety(b, piece, pos), q);
    SafetyVerdict(b, piece, pos, q);
  }
}
