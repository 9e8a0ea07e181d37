/**
 * Short algebraic notation, as `ChessAI.to_notation` builds it (chessai.py:302-327),
 * and a decoder that reads such a string back.
 */
module Notation {
  import opened Wrappers
  import opened Board

  /** ASCII `str.lower` on one character. */
  function Lower(ch: char): char
  {
    if 'A' <= ch <= 'Z' then (ch as int + 32) as char else ch
  }

  /** `piece_map.get(piece.lower(), '')`: pawns and unknown letters have no symbol. */
  function PieceSymbol(piece: char): string
  {
    match Lower(piece)
    case 'n' => "N"
    case 'r' => "R"
    case 'b' => "B"
    case 'q' => "Q"
    case 'k' => "K"
    case _ => ""
  }

  predicate IsSymbol(s: string)
  {
    s in {"N", "R", "B", "Q", "K"}
  }

  /** `chr(ord('a') + col)` */
  function FileChar(col: int): char
    requires 0 <= col < 8
  {
    ('a' as int + col) as char
  }

  /** `str(8 - row)`, always one digit on the board */
  function RankChar(row: int): char
    requires 0 <= row < 8
  {
    ('0' as int + 8 - row) as char
  }

  /**
   * The notation of a move to (row, col). A pawn capture is written with the
   * source file; every other move with its piece symbol. The check suffix is
   * added later, by the legality filter.
   */
  function ToNotation(piece: char, capture: bool, row: int, col: int, srcRow: int, srcCol: int): (r: string)
    requires InBounds(row, col) && 0 <= srcCol < 8
    ensures 2 <= |r| <= 4 && r[|r| - 2] == FileChar(col) && r[|r| - 1] == RankChar(row)
    ensures capture <==> |r| >= 3 && r[|r| - 3] == 'x'
  {
    var dest := [FileChar(col), RankChar(row)];
    if Lower(piece) == 'p' && capture then
      [FileChar(srcCol), 'x'] + dest
    else
      PieceSymbol(piece) + (if capture then "x" else "") + dest
  }

  /** What a notation string says: symbol, source file of a pawn capture, capture, destination, check. */
  datatype San = San(symbol: string, fromFile: Option<int>, capture: bool, row: int, col: int, check: bool)

  /** The square named by a file letter and a rank digit. */
  function ParseSquare(f: char, r: char): (sq: Option<(int, int)>)
    ensures sq.Some? ==> InBounds(sq.value.0, sq.value.1)
  {
    if 'a' <= f <= 'h' && '1' <= r <= '8' then
      Some((8 - (r as int - '0' as int), f as int - 'a' as int))
    else
      None
  }

  /** The part before the destination square: symbol, pawn source file, capture. */
  function ParsePrefix(pre: string): Option<(string, Option<int>, bool)>
  {
    if pre == "" then Some(("", None, false))
    else if pre == "x" then Some(("", None, true))
    else if IsSymbol(pre) then Some((pre, None, false))
    else if |pre| == 2 && pre[1] == 'x' && IsSymbol(pre[..1]) then Some((pre[..1], None, true))
    else if |pre| == 2 && pre[1] == 'x' && 'a' <= pre[0] <= 'h' then
      Some(("", Some(pre[0] as int - 'a' as int), true))
    else None
  }

  /** Reads a notation: an optional '+' at the end, then destination square and prefix. */
  function Decode(s: string): Option<San>
  {
    var check := |s| > 0 && s[|s| - 1] == '+';
    DecodeBody(if check then s[..|s| - 1] else s, check)
  }

  /** Reads a notation without its check suffix: the last two characters are the square. */
  function DecodeBody(body: string, check: bool): Option<San>
  {
    if |body| < 2 then None
    else
      match ParseSquare(body[|body| - 2], body[|body| - 1])
      case None => None
      case Some(sq) =>
        match ParsePrefix(body[..|body| - 2])
        case None => None
        case Some(pre) => Some(San(pre.0, pre.1, pre.2, sq.0, sq.1, check))
  }

  /** What `ToNotation` is meant to write down for a move. */
  function Intended(piece: char, capture: bool, row: int, col: int, srcCol: int, check: bool): San
  {
    if Lower(piece) == 'p' && capture then San("", Some(srcCol), true, row, col, check)
    else San(PieceSymbol(piece), None, capture, row, col, check)
  }

  lemma SymbolIsKnown(piece: char)
    ensures PieceSymbol(piece) == "" || IsSymbol(PieceSymbol(piece))
  {
  }

  /** A '+' at the end is read as the check flag, and the rest as the body. */
  lemma DecodeSuffix(n: string, check: bool)
    requires |n| > 0 && n[|n| - 1] != '+'
    ensures Decode(n + (if check then "+" else "")) == DecodeBody(n, check)
  {
    var s := n + (if check then "+" else "");
    if check {
      assert s[..|s| - 1] == n;
    } else {
      assert s == n;
    }
  }

  /** A body ending in a square's file and rank is read as that square after the prefix. */
  lemma DecodeSquare(pre: string, row: int, col: int, check: bool)
    requires InBounds(row, col)
    ensures DecodeBody(pre + [FileChar(col), RankChar(row)], check) ==
      match ParsePrefix(pre)
      case None => None
      case Some(p) => Some(San(p.0, p.1, p.2, row, col, check))
  {
    var body := pre + [FileChar(col), RankChar(row)];
    assert body[..|body| - 2] == pre;
    assert body[|body| - 2] == FileChar(col) && body[|body| - 1] == RankChar(row);
    assert ParseSquare(FileChar(col), RankChar(row)) == Some((row, col));
  }

  /** What ToNotation writes before the destination square. */
  function Prefix(piece: char, capture: bool, srcCol: int): string
    requires 0 <= srcCol < 8
  {
    if Lower(piece) == 'p' && capture then [FileChar(srcCol), 'x']
    else PieceSymbol(piece) + (if capture then "x" else "")
  }

  /** The prefix is read back as the symbol, the pawn's file and the capture flag. */
  lemma DecodePrefix(piece: char, capture: bool, srcCol: int)
    requires 0 <= srcCol < 8
    ensures var i := Intended(piece, capture, 0, 0, srcCol, false);
      ParsePrefix(Prefix(piece, capture, srcCol)) == Some((i.symbol, i.fromFile, i.capture))
  {
    var pre := Prefix(piece, capture, srcCol);
    if Lower(piece) == 'p' && capture {
      assert pre[..1] == [FileChar(srcCol)] && 'a' <= FileChar(srcCol) <= 'h';
      assert !IsSymbol(pre[..1]);
    } else {
      SymbolIsKnown(piece);
      var sym := PieceSymbol(piece);
      if capture && sym != "" {
        assert |pre| == 2 && pre[1] == 'x' && pre[..1] == sym;
        assert !IsSymbol(pre);
      } else if capture {
        assert pre == "x";
      } else {
        assert pre == sym;
      }
    }
  }

  /**
   * Decoding a notation, with or without the check suffix, gives back the
   * destination square, the capture flag, the piece symbol and, for a pawn
   * capture, the source file.
   */
  lemma DecodeToNotation(piece: char, capture: bool, row: int, col: int, srcRow: int, srcCol: int, check: bool)
    requires InBounds(row, col) && 0 <= srcCol < 8
    ensures Decode(ToNotation(piece, capture, row, col, srcRow, srcCol) + (if check then "+" else ""))
         == Some(Intended(piece, capture, row, col, srcCol, check))
  {
    var n := ToNotation(piece, capture, row, col, srcRow, srcCol);
    var pre := Prefix(piece, capture, srcCol);
    assert n == pre + [FileChar(col), RankChar(row)];
    DecodeSuffix(n, check);
    DecodeSquare(pre, row, col, check);
    DecodePrefix(piece, capture, srcCol);
  }

  /** Two moves with different destinations or capture flags never share a notation. */
  lemma NotationDeterminesMove(piece: char, capture: bool, row: int, col: int, srcRow: int, srcCol: int,
                               capture': bool, row': int, col': int, srcRow': int, srcCol': int)
    requires InBounds(row, col) && 0 <= srcCol < 8
    requires InBounds(row', col') && 0 <= srcCol' < 8
    requires ToNotation(piece, capture, row, col, srcRow, srcCol) == ToNotation(piece, capture', row', col', srcRow', srcCol')
    ensures capture == capture' && row == row' && col == col'
  {
    DecodeToNotation(piece, capture, row, col, srcRow, srcCol, false);
    DecodeToNotation(piece, capture', row', col', srcRow', srcCol', false);
  }
}
