/**
 * `getPseudoLegalMoves` of src/brain/move.ts: each piece's raw movement pattern,
 * without asking whether the mover's own king is left attacked.
 */
module Pseudo {
  import opened Wrappers
  import opened Types
  import opened Squares
  import opened MoveTables
  import opened Geometry

  /** White pawns move toward row 0, black pawns toward row 7. */
  function PawnDirection(c: Color): (dir: int)
    ensures dir == -1 || dir == 1
    ensures c == White <==> dir == -1
  {
    if c == White then -1 else 1
  }

  /** `history[history.length - 1]`, `undefined` for an empty or absent history. */
  function LastMove(h: seq<Move>): (m: Option<Move>)
    ensures m.Some? <==> |h| > 0
    ensures m.Some? ==> m.value == h[|h| - 1]
  {
    if |h| == 0 then None else Some(h[|h| - 1])
  }

  /** `Math.abs(m.from.x - m.to.x) === 2`. */
  predicate IsTwoRowMove(m: Move)
  {
    Abs(m.from.x - m.to.x) == 2
  }

  /** `history.filter(item => item.piece.id === id)`, in history order. */
  function MovesOfPiece(h: seq<Move>, id: int): (r: seq<Move>)
    ensures |r| <= |h|
    ensures forall m | m in r :: m in h && m.piece.id == id
    ensures forall m | m in h && m.piece.id == id :: m in r
  {
    if |h| == 0 then []
    else (if h[0].piece.id == id then [h[0]] else []) + MovesOfPiece(h[1..], id)
  }

  /**
   * The left en passant test of the pseudo layer (move.ts:256-278): an enemy pawn
   * stands at `(x, y - 1)` and the last move was a two-row move by the other side;
   * the moved piece is not compared with the pawn beside.
   */
  predicate PseudoEnPassantLeft(b: Board, piece: Piece, pos: Position, h: seq<Move>)
  {
    var side := Position(pos.x, pos.y - 1);
    var opponent := At(b, side);
    var lastMove := LastMove(h);
    var wasEnPassant := lastMove.Some? && lastMove.value.piece.color != piece.color && IsTwoRowMove(lastMove.value);
    !IsSquareEmpty(b, side) && opponent.Some? && wasEnPassant
    && opponent.value.kind == Pawn && opponent.value.color != piece.color
  }

  /**
   * The right en passant test of the pseudo layer (move.ts:280-300): an enemy pawn
   * stands at `(x, y + 1)` and its whole history is exactly one two-row move.
   */
  predicate PseudoEnPassantRight(b: Board, piece: Piece, pos: Position, h: seq<Move>)
  {
    var side := Position(pos.x, pos.y + 1);
    var opponent := At(b, side);
    var opponentMoves := if opponent.Some? then MovesOfPiece(h, opponent.value.id) else [];
    var wasEnPassant := |opponentMoves| == 1 && IsTwoRowMove(opponentMoves[0]);
    !IsSquareEmpty(b, side) && opponent.Some? && wasEnPassant
    && opponent.value.kind == Pawn && opponent.value.color != piece.color
  }

  /**
   * The straight pawn moves, each accepted by `safe`: one row forward onto an empty
   * square and, for an unmoved pawn, two rows when that square is empty too.
   */
  function ForwardMoves(b: Board, piece: Piece, pos: Position, safe: Position -> bool): (r: seq<Position>)
    ensures forall q | q in r :: q.y == pos.y && IsSquareEmpty(b, q) && safe(q)
  {
    var dir := PawnDirection(piece.color);
    var oneStep := Position(pos.x + dir, pos.y);
    var twoStep := Position(pos.x + 2 * dir, pos.y);
    if IsSquareEmpty(b, oneStep) then
      (if safe(oneStep) then [oneStep] else [])
      + (if !HasMoved(piece) && IsSquareEmpty(b, twoStep) && safe(twoStep) then [twoStep] else [])
    else []
  }

  /** The plain diagonal capture toward column `y + dy`, accepted by `safe`. */
  function DiagonalCapture(b: Board, piece: Piece, pos: Position, dy: int, safe: Position -> bool): (r: seq<Position>)
    ensures forall q | q in r :: IsEnemy(b, piece, q) && safe(q)
  {
    var target := Position(pos.x + PawnDirection(piece.color), pos.y + dy);
    if IsSquareWithInBounds(target) && IsEnemy(b, piece, target) && safe(target) then [target] else []
  }

  /** The pawn case of `getPseudoLegalMoves`, in push order. */
  function PawnPseudoMoves(b: Board, piece: Piece, pos: Position, h: seq<Move>): seq<Position>
  {
    var oneStep := pos.x + PawnDirection(piece.color);
    (if PseudoEnPassantLeft(b, piece, pos, h) then [Position(oneStep, pos.y - 1)] else [])
    + (if PseudoEnPassantRight(b, piece, pos, h) then [Position(oneStep, pos.y + 1)] else [])
    + ForwardMoves(b, piece, pos, NoThreatCheck)
    + DiagonalCapture(b, piece, pos, -1, NoThreatCheck)
    + DiagonalCapture(b, piece, pos, 1, NoThreatCheck)
  }

  /** The direction table a sliding piece walks. */
  function SlidingDirections(kind: PieceType): (dirs: seq<PieceMove>)
    ensures NonZero(dirs)
  {
    BishopTable();
    RookTable();
    QueenTable();
    match kind
    case Bishop => BishopMoves
    case Rook => RookMoves
    case Queen => QueenMoves
    case _ => []
  }

  /** `getPseudoLegalMoves`. */
  function GetPseudoLegalMoves(b: Board, pos: Position, h: seq<Move>): seq<Position>
  {
    match At(b, pos)
    case None => []
    case Some(piece) =>
      match piece.kind
      case Pawn => PawnPseudoMoves(b, piece, pos, h)
      case Knight => OffsetMoves(b, piece, pos, KnightMoves, NoThreatCheck)
      case Bishop => SlidingMoves(b, piece, pos, SlidingDirections(Bishop), NoThreatCheck)
      case Rook => SlidingMoves(b, piece, pos, SlidingDirections(Rook), NoThreatCheck)
      case Queen => SlidingMoves(b, piece, pos, SlidingDirections(Queen), NoThreatCheck)
      case King => OffsetMoves(b, piece, pos, KingMoves, NoThreatCheck)
  }

  // ---------------------------------------------------------------------------
  // Properties

  /** A square without a piece has no moves. */
  lemma PseudoEmptySource(b: Board, pos: Position, h: seq<Move>)
    requires At(b, pos).None?
    ensures GetPseudoLegalMoves(b, pos, h) == []
  {
  }

  /**
   * Knight and king moves are exactly the in-bounds squares at the table offsets
   * that are empty or hold an enemy piece.
   */
  lemma LeaperPseudoMembership(b: Board, pos: Position, h: seq<Move>, q: Position)
    requires At(b, pos).Some? && At(b, pos).value.kind in {Knight, King}
    ensures var piece := At(b, pos).value;
            var offsets := if piece.kind == Knight then KnightMoves else KingMoves;
            q in GetPseudoLegalMoves(b, pos, h) <==>
            exists i :: 0 <= i < |offsets| && q == Shift(pos, offsets[i]) && IsSquareWithInBounds(q) && !IsFriend(b, piece, q)
  {
    var piece := At(b, pos).value;
    var offsets := if piece.kind == Knight then KnightMoves else KingMoves;
    LeaperCase(b, pos, h);
    OffsetMembership(b, piece, pos, offsets, NoThreatCheck, q);
    assert NoThreatCheck(q);
  }

  /** A knight or king is handled by the offset loop over its own table. */
  lemma LeaperCase(b: Board, pos: Position, h: seq<Move>)
    requires At(b, pos).Some? && At(b, pos).value.kind in {Knight, King}
    ensures var piece := At(b, pos).value;
            GetPseudoLegalMoves(b, pos, h) == OffsetMoves(b, piece, pos, if piece.kind == Knight then KnightMoves else KingMoves, NoThreatCheck)
  {
  }

  lemma SliderCase(b: Board, pos: Position, h: seq<Move>)
    requires At(b, pos).Some? && At(b, pos).value.kind in {Bishop, Rook, Queen}
    ensures var piece := At(b, pos).value;
            GetPseudoLegalMoves(b, pos, h) == SlidingMoves(b, piece, pos, SlidingDirections(piece.kind), NoThreatCheck)
  {
  }

  /**
   * Every sliding move lies `k >= 1` steps along a table direction, is in bounds,
   * holds no friendly piece and is reached over empty squares only.
   */
  lemma SliderPseudoSound(b: Board, pos: Position, h: seq<Move>, q: Position) returns (i: nat, k: nat)
    requires At(b, pos).Some? && At(b, pos).value.kind in {Bishop, Rook, Queen}
    requires q in GetPseudoLegalMoves(b, pos, h)
    ensures var piece := At(b, pos).value;
            var dirs := SlidingDirections(piece.kind);
            i < |dirs| && 1 <= k && q == Walk(pos, dirs[i], k)
            && IsSquareWithInBounds(q) && !IsFriend(b, piece, q) && ClearUpTo(b, pos, dirs[i], k)
  {
    var piece := At(b, pos).value;
    var dirs := SlidingDirections(piece.kind);
    SliderCase(b, pos, h);
    SlidingMembership(b, piece, pos, dirs, NoThreatCheck, q);
    i :| 0 <= i < |dirs| && q in Ray(b, piece, pos, dirs[i], NoThreatCheck);
    PseudoRayMembership(b, piece, pos, dirs[i], q);
    k :| 1 <= k && q == Walk(pos, dirs[i], k) && IsSquareWithInBounds(q) && !IsFriend(b, piece, q) && ClearUpTo(b, pos, dirs[i], k);
  }

  /** Conversely, every such square is a sliding move. */
  lemma SliderPseudoComplete(b: Board, pos: Position, h: seq<Move>, i: nat, k: nat)
    requires At(b, pos).Some? && At(b, pos).value.kind in {Bishop, Rook, Queen}
    requires var piece := At(b, pos).value;
             var dirs := SlidingDirections(piece.kind);
             var q := if i < |dirs| then Walk(pos, dirs[i], k) else pos;
             i < |dirs| && 1 <= k
             && IsSquareWithInBounds(q) && !IsFriend(b, piece, q) && ClearUpTo(b, pos, dirs[i], k)
    ensures Walk(pos, SlidingDirections(At(b, pos).value.kind)[i], k) in GetPseudoLegalMoves(b, pos, h)
  {
    var piece := At(b, pos).value;
    var dirs := SlidingDirections(piece.kind);
    var q := Walk(pos, dirs[i], k);
    SliderCase(b, pos, h);
    PseudoRayMembership(b, piece, pos, dirs[i], q);
    assert q in Ray(b, piece, pos, dirs[i], NoThreatCheck);
    SlidingMembership(b, piece, pos, dirs, NoThreatCheck, q);
  }

  /** An enemy pawn stands beside `pos` in column `col`. */
  predicate EnemyPawnBeside(b: Board, piece: Piece, pos: Position, col: int)
  {
    var c := At(b, Position(pos.x, col));
    c.Some? && c.value.kind == Pawn && c.value.color != piece.color
  }

  /**
   * Shape of the pawn's pseudo-legal moves: straight moves go onto empty squares,
   * two rows only for an unmoved pawn over an empty square; diagonal moves go one
   * column aside onto an enemy piece or beside an enemy pawn (en passant); all of
   * them head in the pawn's direction.
   */
  lemma PawnPseudoSound(b: Board, pos: Position, h: seq<Move>, q: Position)
    requires At(b, pos).Some? && At(b, pos).value.kind == Pawn
    requires q in GetPseudoLegalMoves(b, pos, h)
    ensures var piece := At(b, pos).value;
            var dir := PawnDirection(piece.color);
            (q.y == pos.y ==>
               IsSquareEmpty(b, q)
               && (q.x == pos.x + dir
                   || (q.x == pos.x + 2 * dir && !HasMoved(piece) && IsSquareEmpty(b, Position(pos.x + dir, pos.y)))))
            && (q.y != pos.y ==>
               q.x == pos.x + dir && (q.y == pos.y - 1 || q.y == pos.y + 1)
               && (IsEnemy(b, piece, q) || EnemyPawnBeside(b, piece, pos, q.y)))
  {
  }

  /** The pawn's ordinary moves are all offered when their squares allow them. */
  lemma PawnPseudoComplete(b: Board, pos: Position, h: seq<Move>)
    requires At(b, pos).Some? && At(b, pos).value.kind == Pawn
    ensures var piece := At(b, pos).value;
            var dir := PawnDirection(piece.color);
            var moves := GetPseudoLegalMoves(b, pos, h);
            var oneStep := Position(pos.x + dir, pos.y);
            var twoStep := Position(pos.x + 2 * dir, pos.y);
            (IsSquareEmpty(b, oneStep) ==> oneStep in moves)
            && (IsSquareEmpty(b, oneStep) && !HasMoved(piece) && IsSquareEmpty(b, twoStep) ==> twoStep in moves)
            && (IsEnemy(b, piece, Position(pos.x + dir, pos.y - 1)) ==> Position(pos.x + dir, pos.y - 1) in moves)
            && (IsEnemy(b, piece, Position(pos.x + dir, pos.y + 1)) ==> Position(pos.x + dir, pos.y + 1) in moves)
            && (PseudoEnPassantLeft(b, piece, pos, h) ==> Position(pos.x + dir, pos.y - 1) in moves)
            && (PseudoEnPassantRight(b, piece, pos, h) ==> Position(pos.x + dir, pos.y + 1) in moves)
  {
  }
  /** Only the direction itself reaches the square two unit steps along it. */
  lemma SameDirection(dirs: seq<PieceMove>, i: nat, j: nat, k: nat)
    requires forall m | m in dirs :: IsDiagonalUnit(m) || IsOrthogonalUnit(m)
    requires Distinct(dirs) && i < |dirs| && j < |dirs| && 1 <= k
    requires k * dirs[j].dx == 2 * dirs[i].dx && k * dirs[j].dy == 2 * dirs[i].dy
    ensures i == j
  {
    var di, dj := dirs[i], dirs[j];
    assert di in dirs && dj in dirs;
    if di.dx != 0 {
      assert dj.dx == 1 || dj.dx == -1;
    } else {
      assert dj.dy == 1 || dj.dy == -1;
    }
    assert k == 2;
    assert di == dj;
  }

  /**
   * A pseudo-legal slide never goes beyond an occupied first square: the square two
   * steps along that direction is not a move.
   */
  lemma SlideBlockedBeyond(b: Board, pos: Position, h: seq<Move>, i: nat)
    requires At(b, pos).Some? && At(b, pos).value.kind in {Bishop, Rook, Queen}
    requires i < |SlidingDirections(At(b, pos).value.kind)|
    requires At(b, Shift(pos, SlidingDirections(At(b, pos).value.kind)[i])).Some?
    ensures Walk(pos, SlidingDirections(At(b, pos).value.kind)[i], 2) !in GetPseudoLegalMoves(b, pos, h)
  {
    var piece := At(b, pos).value;
    var dirs := SlidingDirections(piece.kind);
    var d := dirs[i];
    var t := Walk(pos, d, 2);
    if t in GetPseudoLegalMoves(b, pos, h) {
      var j, k := SliderPseudoSound(b, pos, h, t);
      WalkClosedForm(pos, dirs[j], k);
      WalkClosedForm(pos, d, 2);
      BishopTable();
      RookTable();
      QueenTable();
      SameDirection(dirs, i, j, k);
      assert false;
    }
  }
}
