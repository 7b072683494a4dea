/** The optional value used wherever the source has `T | null`, `T | undefined` or an optional field. */
module Wrappers {
  datatype Option<+T> = None | Some(value: T)
}

/** The records of the rules engine: pieces, squares, moves, game status and the notation table. */
module Types {
  import opened Wrappers

  datatype Color = White | Black

  /** The other side: `color === "white" ? "black" : "white"`. */
  function Opponent(c: Color): (o: Color)
    ensures o != c
  {
    if c == White then Black else White
  }

  lemma OpponentInvolutive(c: Color)
    ensures Opponent(Opponent(c)) == c
  {
  }

  /** `PieceType`; the source field `type` is called `kind` here because `type` is a Dafny keyword. */
  datatype PieceType = King | Queen | Rook | Bishop | Knight | Pawn

  /**
   * A piece is a value: its numeric `id` travels with every copy, so the identity
   * checks of en passant survive board copies.  `hasMoved` is an optional field
   * (the back-rank pieces of the initial board do not carry it).
   */
  datatype Piece = Piece(id: int, kind: PieceType, color: Color, hasMoved: Option<bool>, notation: string)

  /** JavaScript truthiness of `piece.hasMoved`: only an explicit `true` counts as moved. */
  predicate HasMoved(p: Piece)
  {
    p.hasMoved == Some(true)
  }

  /** A square `{x, y}`: `x` is the row (0 is Black's back row), `y` the column.  Off-board values occur as probes. */
  datatype Position = Position(x: int, y: int)

  /** `PIECE_MOVE`: a direction or offset. */
  datatype PieceMove = PieceMove(dx: int, dy: int)

  datatype PieceWithPosition = PieceWithPosition(piece: Piece, position: Position)

  /** A history entry; the optional fields are `None` when absent. */
  datatype Move = Move(
    from: Position,
    to: Position,
    piece: Piece,
    capturedPiece: Option<Piece>,
    isPromoted: Option<bool>,
    isCastle: Option<bool>,
    promotedTo: Option<PieceType>)

  datatype GameStatus = WaitingForPlayer | InProgress | Checkmate | Stalemate | Resigned | Draw {
    /** The position of this value in the declaration. */
    function Index(): (i: nat)
      ensures i < 6
    {
      match this
      case WaitingForPlayer => 0
      case InProgress => 1
      case Checkmate => 2
      case Stalemate => 3
      case Resigned => 4
      case Draw => 5
    }
  }

  /** The status values in declaration order. */
  function AllStatuses(): (s: seq<GameStatus>)
    ensures |s| == 6
    ensures forall g: GameStatus :: s[g.Index()] == g
    ensures forall i, j | 0 <= i < j < |s| :: s[i] != s[j]
  {
    [WaitingForPlayer, InProgress, Checkmate, Stalemate, Resigned, Draw]
  }

  /** One entry of `CHARACTER_MAP`: the two display glyphs and the notation letter. */
  datatype Glyphs = Glyphs(white: string, black: string, notation: string)

  function CharacterMap(t: PieceType): (g: Glyphs)
    ensures g.notation == "" <==> t == Pawn
    ensures |g.notation| <= 1
  {
    match t
    case King => Glyphs("\U{2654}", "\U{265A}", "K")
    case Queen => Glyphs("\U{2655}", "\U{265B}", "Q")
    case Rook => Glyphs("\U{2656}", "\U{265C}", "R")
    case Bishop => Glyphs("\U{2657}", "\U{265D}", "B")
    case Knight => Glyphs("\U{2658}", "\U{265E}", "N")
    case Pawn => Glyphs("\U{2659}", "\U{265F}\U{FE0E}", "")
  }

  /** Reads a notation letter back as a piece type: the inverse of `CharacterMap(_).notation`. */
  function TypeOfNotation(letter: string): (t: Option<PieceType>)
    ensures t.Some? ==> CharacterMap(t.value).notation == letter
  {
    if letter == "K" then Some(King)
    else if letter == "Q" then Some(Queen)
    else if letter == "R" then Some(Rook)
    else if letter == "B" then Some(Bishop)
    else if letter == "N" then Some(Knight)
    else if letter == "" then Some(Pawn)
    else None
  }

  /** Every type's notation letter reads back as that type, so the letters are pairwise distinct. */
  lemma NotationRoundTrip(t: PieceType)
    ensures TypeOfNotation(CharacterMap(t).notation) == Some(t)
  {
  }
}
