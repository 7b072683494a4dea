/**
 * The per-move line of the move list in src/components/History.tsx: the entry
 * number `i + 1`, then either the castle mark or the mover's notation letter, the
 * capture mark and the destination square in algebraic form.
 */
module Notation {
  import opened Wrappers
  import opened Types

  predicate IsDigit(c: char)
  {
    '0' <= c <= '9'
  }

  function DigitChar(d: nat): (c: char)
    requires d < 10
    ensures IsDigit(c) && (c as int) - ('0' as int) == d
  {
    "0123456789"[d]
  }

  /** Decimal text of a number, as a template literal prints it. */
  function NatToString(n: nat): (s: string)
    ensures |s| > 0 && forall k | 0 <= k < |s| :: IsDigit(s[k])
    decreases n
  {
    if n < 10 then [DigitChar(n)] else NatToString(n / 10) + [DigitChar(n % 10)]
  }

  /** Decimal text of an integer, with a leading `-` when it is negative. */
  function IntToString(z: int): string
  {
    if z < 0 then "-" + NatToString(-z) else NatToString(z)
  }

  /** The value of a string of decimal digits. */
  function ParseNat(s: string): nat
    requires forall k | 0 <= k < |s| :: IsDigit(s[k])
  {
    if |s| == 0 then 0
    else
      var last := s[|s| - 1];
      assert IsDigit(last);
      10 * ParseNat(s[..|s| - 1]) + ((last as int) - ('0' as int))
  }

  /** `s.charAt(k)`: the one-character string at `k`, or `""` out of range. */
  function CharAt(s: string, k: int): (r: string)
    ensures |r| <= 1
  {
    if 0 <= k < |s| then [s[k]] else ""
  }

  /** A present `isCastle` that is true; an absent flag counts as false. */
  predicate IsCastleMove(m: Move)
  {
    m.isCastle == Some(true)
  }

  /** The capture mark: `dx` for a pawn capture, `x` for any other capture, nothing otherwise. */
  function CaptureMark(m: Move): string
  {
    if m.capturedPiece.Some? then (if m.piece.kind == Pawn then "dx" else "x") else ""
  }

  /** `"abcdefgh".charAt(to.y)` followed by `8 - to.x`. */
  function SquareName(q: Position): string
  {
    CharAt("abcdefgh", q.y) + IntToString(8 - q.x)
  }

  /** What follows the entry number: the castle mark, or letter, capture mark and square. */
  function MoveText(m: Move): string
  {
    if !IsCastleMove(m) then
      m.piece.notation + CaptureMark(m) + SquareName(m.to)
    else
      if m.to.y == 2 then "o-o-o" else "o-o"
  }

  /** The text of entry `i` of the move list for the move `m`. */
  function MoveNotation(m: Move, i: nat): string
  {
    NatToString(i + 1) + ". " + MoveText(m)
  }

  // ---------------------------------------------------------------------------
  // Reading an entry back

  /** The number of digits at the start of `s`. */
  function LeadingDigits(s: string): (k: nat)
    ensures k <= |s| && forall j | 0 <= j < k :: IsDigit(s[j])
    ensures k < |s| ==> !IsDigit(s[k])
  {
    if |s| > 0 && IsDigit(s[0]) then 1 + LeadingDigits(s[1..]) else 0
  }

  /** The entry number of a line: the digits before the first `". "`. */
  function EntryNumber(s: string): Option<nat>
  {
    var k := LeadingDigits(s);
    if 0 < k && k + 2 <= |s| && s[k..k + 2] == ". " then Some(ParseNat(s[..k])) else None
  }

  /** A two-character algebraic square name read back as a board position. */
  function ParseSquare(s: string): (r: Option<Position>)
    ensures r.Some? ==> 0 <= r.value.x < 8 && 0 <= r.value.y < 8
  {
    if |s| == 2 && 'a' <= s[0] <= 'h' && '1' <= s[1] <= '8' then
      Some(Position(8 - ((s[1] as int) - ('0' as int)), (s[0] as int) - ('a' as int)))
    else None
  }

  /** The last two characters of a line, where a square name ends. */
  function Suffix(s: string): string
  {
    if |s| < 2 then s else s[|s| - 2..]
  }

  // ---------------------------------------------------------------------------
  // Properties

  /** Decimal text reads back as the number it prints. */
  lemma {:induction false} NatRoundTrip(n: nat)
    ensures ParseNat(NatToString(n)) == n
    decreases n
  {
    if n >= 10 {
      var s := NatToString(n);
      NatRoundTrip(n / 10);
      assert s[..|s| - 1] == NatToString(n / 10);
    }
  }

  /** The digits of a number followed by a non-digit are counted exactly. */
  lemma {:induction false} LeadingDigitsOfNumber(d: string, rest: string)
    requires forall k | 0 <= k < |d| :: IsDigit(d[k])
    requires |rest| > 0 && !IsDigit(rest[0])
    ensures LeadingDigits(d + rest) == |d|
    decreases |d|
  {
    if |d| > 0 {
      assert (d + rest)[1..] == d[1..] + rest;
      LeadingDigitsOfNumber(d[1..], rest);
    } else {
      assert d + rest == rest;
    }
  }

  /** Every line, castle or not, starts with its entry number `i + 1` followed by `". "`. */
  lemma EntryNumberRoundTrip(m: Move, i: nat)
    ensures EntryNumber(MoveNotation(m, i)) == Some(i + 1)
  {
    NumberedLine(i + 1, MoveText(m));
  }

  /** A number followed by `". "` and any text reads back as that number. */
  lemma NumberedLine(n: nat, text: string)
    ensures EntryNumber(NatToString(n) + ". " + text) == Some(n)
  {
    var d := NatToString(n);
    var rest := ". " + text;
    var s := d + rest;
    assert s == NatToString(n) + ". " + text;
    LeadingDigitsOfNumber(d, rest);
    assert s[..|d|] == d;
    assert s[|d|..|d| + 2] == ". ";
    NatRoundTrip(n);
  }

  /** A destination on the board is named by a file letter `a`-`h` and a rank digit `1`-`8` that read back as that square. */
  lemma SquareRoundTrip(q: Position)
    requires 0 <= q.x < 8 && 0 <= q.y < 8
    ensures |SquareName(q)| == 2
    ensures 'a' <= SquareName(q)[0] <= 'h' && '1' <= SquareName(q)[1] <= '8'
    ensures ParseSquare(SquareName(q)) == Some(q)
  {
  }

  /** A line for a move that is not a castle ends with the name of the destination square. */
  lemma DestinationReadBack(m: Move, i: nat)
    requires !IsCastleMove(m) && 0 <= m.to.x < 8 && 0 <= m.to.y < 8
    ensures ParseSquare(Suffix(MoveNotation(m, i))) == Some(m.to)
  {
    var s := MoveNotation(m, i);
    SquareRoundTrip(m.to);
    assert Suffix(s) == SquareName(m.to);
  }

  /**
   * A castle line reads `o-o-o` (queen side, destination column 2) or `o-o`
   * after the entry number, and never ends in a square name, so it cannot be
   * mistaken for an ordinary move.
   */
  lemma CastleLine(m: Move, i: nat)
    requires IsCastleMove(m)
    ensures var s := MoveNotation(m, i);
            var lead := NatToString(i + 1) + ". ";
            s[..|lead|] == lead
            && s[|lead|..] == (if m.to.y == 2 then "o-o-o" else "o-o")
            && ParseSquare(Suffix(s)) == None
  {
    var s := MoveNotation(m, i);
    var lead := NatToString(i + 1) + ". ";
    var mark := if m.to.y == 2 then "o-o-o" else "o-o";
    assert s == lead + mark;
    assert s[..|lead|] == lead;
    assert s[|lead|..] == mark;
    assert Suffix(s) == "-o";
  }

  /**
   * An ordinary line holds, between `". "` and the square, the mover's notation
   * letter followed by `dx` for a pawn capture, `x` for any other capture, and
   * nothing when no piece was taken.
   */
  lemma MoveLine(m: Move, i: nat)
    requires !IsCastleMove(m)
    ensures var s := MoveNotation(m, i);
            var lead := NatToString(i + 1) + ". " + m.piece.notation;
            var mark := if m.capturedPiece.None? then "" else if m.piece.kind == Pawn then "dx" else "x";
            s == lead + mark + SquareName(m.to)
  {
  }

  /**
   * The text between the mover's letter and the destination square of an ordinary
   * line tells whether a piece was taken and whether the taker was a pawn.
   */
  lemma CaptureReadBack(m: Move, i: nat)
    requires !IsCastleMove(m) && 0 <= m.to.x < 8 && 0 <= m.to.y < 8
    ensures var s := MoveNotation(m, i);
            var lead := NatToString(i + 1) + ". " + m.piece.notation;
            |lead| + 2 <= |s| && s[..|lead|] == lead
            && (s[|lead|..|s| - 2] == "dx" <==> m.capturedPiece.Some? && m.piece.kind == Pawn)
            && (s[|lead|..|s| - 2] == "x" <==> m.capturedPiece.Some? && m.piece.kind != Pawn)
            && (s[|lead|..|s| - 2] == "" <==> m.capturedPiece.None?)
  {
    var s := MoveNotation(m, i);
    var lead := NatToString(i + 1) + ". " + m.piece.notation;
    var mark := CaptureMark(m);
    MoveLine(m, i);
    SquareRoundTrip(m.to);
    assert s == lead + mark + SquareName(m.to);
    assert s[..|lead|] == lead;
    assert s[|lead|..|s| - 2] == mark;
  }
}
