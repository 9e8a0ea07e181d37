/**
 * Static evaluation, as `ChessAI.evaluate` does it (chessai.py:79-100): the
 * material of White minus the material of Black, with pawn 1, knight 3,
 * bishop 3, rook 5, queen 9 and king 0.
 */
module Evaluation {
  import opened Board

  function PieceValue(k: Kind): (v: int)
    ensures 0 <= v <= 9
  {
    match k
    case Pawn => 1
    case Knight => 3
    case Bishop => 3
    case Rook => 5
    case Queen => 9
    case King => 0
  }

  /** What one cell adds to the score: its value for a white piece, minus it for a black one. */
  function CellValue(x: Cell): int
  {
    match x
    case Empty => 0
    case Piece(k, White) => PieceValue(k)
    case Piece(k, Black) => -PieceValue(k)
  }

  /** The score of the first n cells of a row. */
  function RowValue(row: seq<Cell>, n: int): int
    requires 0 <= n <= |row|
  {
    if n == 0 then 0 else RowValue(row, n - 1) + CellValue(row[n - 1])
  }

  /** The score of the first n rows. */
  function RowsValue(b: Board, n: int): int
    requires 0 <= n <= 8
  {
    if n == 0 then 0 else RowsValue(b, n - 1) + RowValue(b[n - 1], 8)
  }

  function BoardValue(b: Board): int
  {
    RowsValue(b, 8)
  }

  /** `evaluate` (chessai.py:79-100). */
  method Evaluate(b: Board) returns (score: int)
    ensures score == BoardValue(b)
  {
    score := 0;
    for i := 0 to 8
      invariant score == RowsValue(b, i)
    {
      var row := b[i];
      ghost var before := score;
      for j := 0 to 8
        invariant score == before + RowValue(row, j)
      {
        var piece := row[j];
        if piece == Empty {
          continue;
        }
        var value := PieceValue(piece.kind);
        if piece.color == White {
          score := score + value;
        } else if piece.color == Black {
          score := score - value;
        }
      }
    }
  }

  // ---------------------------------------------------------------- material

  /** The total value of the pieces of colour `color` among the first n cells of a row. */
  function RowMaterial(row: seq<Cell>, color: Color, n: int): (v: int)
    requires 0 <= n <= |row|
    ensures 0 <= v <= 9 * n
  {
    if n == 0 then 0 else RowMaterial(row, color, n - 1) + OwnValue(row[n - 1], color)
  }

  /** The value of a cell's piece when it has colour `color`, else 0. */
  function OwnValue(x: Cell, color: Color): (v: int)
    ensures 0 <= v <= 9
  {
    if x.Piece? && x.color == color then PieceValue(x.kind) else 0
  }

  function RowsMaterial(b: Board, color: Color, n: int): (v: int)
    requires 0 <= n <= 8
    ensures 0 <= v <= 72 * n
  {
    if n == 0 then 0 else RowsMaterial(b, color, n - 1) + RowMaterial(b[n - 1], color, 8)
  }

  /** The material of one side. */
  function Material(b: Board, color: Color): (v: int)
    ensures 0 <= v <= 576
  {
    RowsMaterial(b, color, 8)
  }

  lemma {:induction false} RowValueMaterial(row: seq<Cell>, n: int)
    requires 0 <= n <= |row|
    ensures RowValue(row, n) == RowMaterial(row, White, n) - RowMaterial(row, Black, n)
  {
    if n > 0 {
      RowValueMaterial(row, n - 1);
    }
  }

  lemma {:induction false} RowsValueMaterial(b: Board, n: int)
    requires 0 <= n <= 8
    ensures RowsValue(b, n) == RowsMaterial(b, White, n) - RowsMaterial(b, Black, n)
  {
    if n > 0 {
      RowsValueMaterial(b, n - 1);
      RowValueMaterial(b[n - 1], 8);
    }
  }

  /**
   * The score is White's material minus Black's, so it lies within the
   * bounds of 64 queens either way.
   */
  lemma ValueIsMaterial(b: Board)
    ensures BoardValue(b) == Material(b, White) - Material(b, Black)
    ensures -576 <= BoardValue(b) <= 576
  {
    RowsValueMaterial(b, 8);
  }

  // ---------------------------------------------------------------- updates

  lemma {:induction false} RowValueUpdate(row: seq<Cell>, n: int, c: int, x: Cell)
    requires 0 <= c < |row| && 0 <= n <= |row|
    ensures RowValue(row[c := x], n) ==
      RowValue(row, n) + (if c < n then CellValue(x) - CellValue(row[c]) else 0)
  {
    if n > 0 {
      RowValueUpdate(row, n - 1, c, x);
    }
  }

  lemma {:induction false} RowsValueUpdate(b: Board, n: int, r: int, c: int, x: Cell)
    requires InBounds(r, c) && 0 <= n <= 8
    ensures RowsValue(SetCell(b, r, c, x), n) ==
      RowsValue(b, n) + (if r < n then CellValue(x) - CellValue(b[r][c]) else 0)
  {
    if n > 0 {
      RowsValueUpdate(b, n - 1, r, c, x);
      if n - 1 == r {
        RowValueUpdate(b[r], 8, c, x);
      } else {
        assert SetCell(b, r, c, x)[n - 1] == b[n - 1];
      }
    }
  }

  /** Writing one cell changes the score by the new cell's value less the old one's. */
  lemma SetCellValue(b: Board, r: int, c: int, x: Cell)
    requires InBounds(r, c)
    ensures BoardValue(SetCell(b, r, c, x)) == BoardValue(b) - CellValue(b[r][c]) + CellValue(x)
  {
    RowsValueUpdate(b, 8, r, c, x);
  }

  /**
   * A move changes the score only by what it captures: a quiet move keeps it,
   * and taking a piece removes exactly that piece's contribution.
   */
  lemma ApplyValue(b: Board, fr: int, fc: int, tr: int, tc: int)
    requires InBounds(fr, fc) && InBounds(tr, tc) && (fr, fc) != (tr, tc)
    ensures BoardValue(Apply(b, fr, fc, tr, tc)) == BoardValue(b) - CellValue(b[tr][tc])
  {
    var b1 := SetCell(b, tr, tc, b[fr][fc]);
    SetCellValue(b, tr, tc, b[fr][fc]);
    SetCellValue(b1, fr, fc, Empty);
    assert b1[fr][fc] == b[fr][fc];
  }
}
