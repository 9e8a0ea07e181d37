/**
 * The initial position, as `get_starting_board` builds it (chess.py:3-22).
 * With white = true Black sits on rows 0-1 and White on rows 6-7, queens on
 * the d-file; with white = false the colours change sides and king and queen
 * swap columns, so the board is the same position seen from Black's side.
 */
module Start {
  import opened Wrappers
  import opened Board
  import opened Evaluation
  import opened Check

  /** The back rank, left to right, for a colour, with the king on column kingCol and the queen on the other of d and e. */
  function BackRank(color: Color, kingCol: int): seq<Cell>
  {
    [Piece(Rook, color), Piece(Knight, color), Piece(Bishop, color),
     if kingCol == 3 then Piece(King, color) else Piece(Queen, color),
     if kingCol == 3 then Piece(Queen, color) else Piece(King, color),
     Piece(Bishop, color), Piece(Knight, color), Piece(Rook, color)]
  }

  function PawnRank(color: Color): seq<Cell>
  {
    seq(8, _ => Piece(Pawn, color))
  }

  function EmptyRank(): seq<Cell>
  {
    seq(8, _ => Empty)
  }

  /** `get_starting_board` (chess.py:3-22). */
  function StartingBoard(white: bool): (b: Board)
    ensures var kc := if white then 4 else 3;
      b[7][kc] == Piece(King, ColorOf(white)) && b[0][kc] == Piece(King, EnemyColor(white))
  {
    var top := if white then Black else White;
    var bottom := if white then White else Black;
    var kingCol := if white then 4 else 3;
    [BackRank(top, kingCol), PawnRank(top), EmptyRank(), EmptyRank(),
     EmptyRank(), EmptyRank(), PawnRank(bottom), BackRank(bottom, kingCol)]
  }

  /**
   * The arrangement: the side at the bottom is White when white is set,
   * rows 2 to 5 are empty, rows 1 and 6 hold pawns, and the back ranks hold
   * R N B . . B N R with the king on e (white = true) or d (white = false).
   */
  lemma StartingBoardLayout(white: bool)
    ensures var b := StartingBoard(white);
      var bottom := ColorOf(white);
      var top := EnemyColor(white);
      var kc := if white then 4 else 3;
      (forall i, j | 2 <= i < 6 && 0 <= j < 8 :: b[i][j] == Empty) &&
      (forall j | 0 <= j < 8 :: b[1][j] == Piece(Pawn, top) && b[6][j] == Piece(Pawn, bottom)) &&
      b[7][kc] == Piece(King, bottom) && b[0][kc] == Piece(King, top) &&
      b[7][7 - kc] == Piece(Queen, bottom) && b[0][7 - kc] == Piece(Queen, top) &&
      (forall j | j in {0, 7} :: b[0][j] == Piece(Rook, top) && b[7][j] == Piece(Rook, bottom)) &&
      (forall j | j in {1, 6} :: b[0][j] == Piece(Knight, top) && b[7][j] == Piece(Knight, bottom)) &&
      (forall j | j in {2, 5} :: b[0][j] == Piece(Bishop, top) && b[7][j] == Piece(Bishop, bottom))
  {
  }

  /** Each side has exactly one king, so FindKing finds it on its back rank. */
  lemma StartingKings(white: bool)
    ensures var b := StartingBoard(white);
      var kc := if white then 4 else 3;
      FindKing(b, white) == Some((7, kc)) && FindKing(b, !white) == Some((0, kc))
  {
    var b := StartingBoard(white);
    var kc := if white then 4 else 3;
    FindKingSpec(b, white);
    FindKingSpec(b, !white);
    assert b[7][kc] == KingOf(white) && b[0][kc] == KingOf(!white);
  }

  lemma RankMaterial(rank: seq<Cell>, color: Color, v: int)
    requires |rank| == 8
    requires v == OwnValue(rank[0], color) + OwnValue(rank[1], color) + OwnValue(rank[2], color)
      + OwnValue(rank[3], color) + OwnValue(rank[4], color) + OwnValue(rank[5], color)
      + OwnValue(rank[6], color) + OwnValue(rank[7], color)
    ensures RowMaterial(rank, color, 8) == v
  {
    assert RowMaterial(rank, color, 0) == 0;
    assert RowMaterial(rank, color, 1) == OwnValue(rank[0], color);
    assert RowMaterial(rank, color, 2) == RowMaterial(rank, color, 1) + OwnValue(rank[1], color);
    assert RowMaterial(rank, color, 3) == RowMaterial(rank, color, 2) + OwnValue(rank[2], color);
    assert RowMaterial(rank, color, 4) == RowMaterial(rank, color, 3) + OwnValue(rank[3], color);
    assert RowMaterial(rank, color, 5) == RowMaterial(rank, color, 4) + OwnValue(rank[4], color);
    assert RowMaterial(rank, color, 6) == RowMaterial(rank, color, 5) + OwnValue(rank[5], color);
    assert RowMaterial(rank, color, 7) == RowMaterial(rank, color, 6) + OwnValue(rank[6], color);
  }

  /** The material of a board, rank by rank. */
  lemma BoardMaterial(b: Board, color: Color)
    ensures Material(b, color) == RowMaterial(b[0], color, 8) + RowMaterial(b[1], color, 8)
      + RowMaterial(b[2], color, 8) + RowMaterial(b[3], color, 8) + RowMaterial(b[4], color, 8)
      + RowMaterial(b[5], color, 8) + RowMaterial(b[6], color, 8) + RowMaterial(b[7], color, 8)
  {
    assert RowsMaterial(b, color, 0) == 0;
    assert RowsMaterial(b, color, 1) == RowMaterial(b[0], color, 8);
    assert RowsMaterial(b, color, 2) == RowsMaterial(b, color, 1) + RowMaterial(b[1], color, 8);
    assert RowsMaterial(b, color, 3) == RowsMaterial(b, color, 2) + RowMaterial(b[2], color, 8);
    assert RowsMaterial(b, color, 4) == RowsMaterial(b, color, 3) + RowMaterial(b[3], color, 8);
    assert RowsMaterial(b, color, 5) == RowsMaterial(b, color, 4) + RowMaterial(b[4], color, 8);
    assert RowsMaterial(b, color, 6) == RowsMaterial(b, color, 5) + RowMaterial(b[5], color, 8);
    assert RowsMaterial(b, color, 7) == RowsMaterial(b, color, 6) + RowMaterial(b[6], color, 8);
  }

  /** The material of the ranks of one side: 31 on the back rank, 8 in pawns. */
  lemma RanksMaterial(color: Color, kingCol: int)
    ensures RowMaterial(BackRank(color, kingCol), color, 8) == 31
    ensures RowMaterial(PawnRank(color), color, 8) == 8
    ensures forall other | other != color ::
      RowMaterial(BackRank(color, kingCol), other, 8) == 0 && RowMaterial(PawnRank(color), other, 8) == 0
    ensures forall c :: RowMaterial(EmptyRank(), c, 8) == 0
  {
    RankMaterial(BackRank(color, kingCol), color, 31);
    RankMaterial(PawnRank(color), color, 8);
    forall other | other != color
      ensures RowMaterial(BackRank(color, kingCol), other, 8) == 0 && RowMaterial(PawnRank(color), other, 8) == 0
    {
      RankMaterial(BackRank(color, kingCol), other, 0);
      RankMaterial(PawnRank(color), other, 0);
    }
    forall c ensures RowMaterial(EmptyRank(), c, 8) == 0 {
      RankMaterial(EmptyRank(), c, 0);
    }
  }

  /** The material is level at the start: each side has 39 points. */
  lemma StartingBoardValue(white: bool)
    ensures Material(StartingBoard(white), White) == 39
    ensures Material(StartingBoard(white), Black) == 39
    ensures BoardValue(StartingBoard(white)) == 0
  {
    var kingCol := if white then 4 else 3;
    RanksMaterial(White, kingCol);
    RanksMaterial(Black, kingCol);
    var b := StartingBoard(white);
    BoardMaterial(b, White);
    BoardMaterial(b, Black);
    ValueIsMaterial(b);
  }

  // ---------------------------------------------------------------- census

  /** How many of the first n cells of a row hold x. */
  function RowCount(row: seq<Cell>, x: Cell, n: int): (k: nat)
    requires 0 <= n <= |row|
    ensures k <= n
  {
    if n == 0 then 0 else RowCount(row, x, n - 1) + Hit(row[n - 1], x)
  }

  /** 1 when the cell holds x, else 0. */
  function Hit(y: Cell, x: Cell): nat
  {
    if y == x then 1 else 0
  }

  /** How many cells of the first n rows hold x. */
  function RowsCount(b: Board, x: Cell, n: int): (k: nat)
    requires 0 <= n <= 8
    ensures k <= 8 * n
  {
    if n == 0 then 0 else RowsCount(b, x, n - 1) + RowCount(b[n - 1], x, 8)
  }

  /** How many cells of the board hold x. */
  function CellCount(b: Board, x: Cell): nat
  {
    RowsCount(b, x, 8)
  }

  /** How many of each piece a side starts with. */
  function StartingCount(k: Kind): nat
  {
    match k
    case Pawn => 8
    case Knight => 2
    case Bishop => 2
    case Rook => 2
    case Queen => 1
    case King => 1
  }

  lemma RankCount(rank: seq<Cell>, x: Cell, k: int)
    requires |rank| == 8
    requires k == Hit(rank[0], x) + Hit(rank[1], x)
      + Hit(rank[2], x) + Hit(rank[3], x)
      + Hit(rank[4], x) + Hit(rank[5], x)
      + Hit(rank[6], x) + Hit(rank[7], x)
    ensures RowCount(rank, x, 8) == k
  {
    assert RowCount(rank, x, 0) == 0;
    assert RowCount(rank, x, 1) == Hit(rank[0], x);
    assert RowCount(rank, x, 2) == RowCount(rank, x, 1) + Hit(rank[1], x);
    assert RowCount(rank, x, 3) == RowCount(rank, x, 2) + Hit(rank[2], x);
    assert RowCount(rank, x, 4) == RowCount(rank, x, 3) + Hit(rank[3], x);
    assert RowCount(rank, x, 5) == RowCount(rank, x, 4) + Hit(rank[4], x);
    assert RowCount(rank, x, 6) == RowCount(rank, x, 5) + Hit(rank[5], x);
    assert RowCount(rank, x, 7) == RowCount(rank, x, 6) + Hit(rank[6], x);
  }

  lemma BoardCount(b: Board, x: Cell)
    ensures CellCount(b, x) == RowCount(b[0], x, 8) + RowCount(b[1], x, 8)
      + RowCount(b[2], x, 8) + RowCount(b[3], x, 8) + RowCount(b[4], x, 8)
      + RowCount(b[5], x, 8) + RowCount(b[6], x, 8) + RowCount(b[7], x, 8)
  {
    assert RowsCount(b, x, 0) == 0;
    assert RowsCount(b, x, 1) == RowCount(b[0], x, 8);
    assert RowsCount(b, x, 2) == RowsCount(b, x, 1) + RowCount(b[1], x, 8);
    assert RowsCount(b, x, 3) == RowsCount(b, x, 2) + RowCount(b[2], x, 8);
    assert RowsCount(b, x, 4) == RowsCount(b, x, 3) + RowCount(b[3], x, 8);
    assert RowsCount(b, x, 5) == RowsCount(b, x, 4) + RowCount(b[4], x, 8);
    assert RowsCount(b, x, 6) == RowsCount(b, x, 5) + RowCount(b[5], x, 8);
    assert RowsCount(b, x, 7) == RowsCount(b, x, 6) + RowCount(b[6], x, 8);
  }

  /** The count of piece x on each kind of starting rank. */
  lemma RanksCount(color: Color, kingCol: int, x: Cell)
    requires kingCol == 3 || kingCol == 4
    ensures RowCount(BackRank(color, kingCol), x, 8) ==
      (if x.Piece? && x.color == color && x.kind != Pawn then StartingCount(x.kind) else 0)
    ensures RowCount(PawnRank(color), x, 8) == (if x == Piece(Pawn, color) then 8 else 0)
    ensures RowCount(EmptyRank(), x, 8) == (if x == Empty then 8 else 0)
  {
    var r := BackRank(color, kingCol);
    RankCount(r, x, Hit(r[0], x) + Hit(r[1], x)
      + Hit(r[2], x) + Hit(r[3], x)
      + Hit(r[4], x) + Hit(r[5], x)
      + Hit(r[6], x) + Hit(r[7], x));
    RankCount(PawnRank(color), x, if x == Piece(Pawn, color) then 8 else 0);
    RankCount(EmptyRank(), x, if x == Empty then 8 else 0);
  }

  /**
   * Either orientation holds, for each side, eight pawns, two knights, two
   * bishops, two rooks, one queen and exactly one king: sixteen pieces.
   */
  lemma StartingCensus(white: bool, color: Color, k: Kind)
    ensures CellCount(StartingBoard(white), Piece(k, color)) == StartingCount(k)
  {
    StartingRows(white, Piece(k, color));
    RanksSum(if white then Black else White, if white then White else Black, if white then 4 else 3, color, k);
  }

  /** Over the five kinds of rank of a starting board, piece x occurs as often as a side starts with it. */
  lemma RanksSum(top: Color, bottom: Color, kingCol: int, color: Color, k: Kind)
    requires top != bottom && (kingCol == 3 || kingCol == 4)
    ensures var x := Piece(k, color);
      RowCount(BackRank(top, kingCol), x, 8) + RowCount(PawnRank(top), x, 8) +
      4 * RowCount(EmptyRank(), x, 8) +
      RowCount(PawnRank(bottom), x, 8) + RowCount(BackRank(bottom, kingCol), x, 8) == StartingCount(k)
  {
    RanksCount(top, kingCol, Piece(k, color));
    RanksCount(bottom, kingCol, Piece(k, color));
  }

  /** The count on the starting board is the count on its five kinds of rank. */
  lemma StartingRows(white: bool, x: Cell)
    ensures var top := if white then Black else White;
      var bottom := if white then White else Black;
      var kingCol := if white then 4 else 3;
      CellCount(StartingBoard(white), x) ==
        RowCount(BackRank(top, kingCol), x, 8) + RowCount(PawnRank(top), x, 8) +
        4 * RowCount(EmptyRank(), x, 8) +
        RowCount(PawnRank(bottom), x, 8) + RowCount(BackRank(bottom, kingCol), x, 8)
  {
    BoardCount(StartingBoard(white), x);
  }

  /** The number of pieces of one colour. */
  function SideCount(b: Board, color: Color): nat
  {
    CellCount(b, Piece(Pawn, color)) + CellCount(b, Piece(Knight, color)) + CellCount(b, Piece(Bishop, color)) +
    CellCount(b, Piece(Rook, color)) + CellCount(b, Piece(Queen, color)) + CellCount(b, Piece(King, color))
  }

  /** Each side starts with sixteen pieces. */
  lemma StartingSides(white: bool, color: Color)
    ensures SideCount(StartingBoard(white), color) == 16
  {
    StartingCensus(white, color, Pawn);
    StartingCensus(white, color, Knight);
    StartingCensus(white, color, Bishop);
    StartingCensus(white, color, Rook);
    StartingCensus(white, color, Queen);
    StartingCensus(white, color, King);
  }
}
