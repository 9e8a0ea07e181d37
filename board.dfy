/**
 * The board model of chessai.py: an 8x8 grid of cells, row 0 being rank 8.
 * A cell is either empty ('' in the source) or a piece letter with a colour
 * letter ('pw', 'kb', ...), represented here as a tagged value.
 */
module Board {
  import opened Wrappers

  datatype Color = White | Black

  datatype Kind = Pawn | Knight | Bishop | Rook | Queen | King

  datatype Cell = Empty | Piece(kind: Kind, color: Color)

  predicate IsGrid(g: seq<seq<Cell>>)
  {
    |g| == 8 && forall i | 0 <= i < 8 :: |g[i]| == 8
  }

  /** A board is a value: copying it (`copy.deepcopy`) is just using it again. */
  type Board = g: seq<seq<Cell>> | IsGrid(g) witness seq(8, _ => seq(8, _ => Empty))

  /** The colour letter the source derives from its `white` flag. */
  function ColorOf(white: bool): Color
  {
    if white then White else Black
  }

  /** The colour letter the source calls `enemy_color`. */
  function EnemyColor(white: bool): Color
  {
    if white then Black else White
  }

  predicate InBounds(r: int, c: int)
  {
    0 <= r < 8 && 0 <= c < 8
  }

  /** The cell at (r, c), or None off the board. */
  function Sq(b: Board, r: int, c: int): (x: Option<Cell>)
    ensures x.Some? <==> InBounds(r, c)
  {
    if InBounds(r, c) then Some(b[r][c]) else None
  }

  predicate IsFriendly(x: Cell, white: bool)
  {
    x.Piece? && x.color == ColorOf(white)
  }

  predicate IsEnemy(x: Cell, white: bool)
  {
    x.Piece? && x.color == EnemyColor(white)
  }

  /** The board with one cell replaced (one in-place write on a copy). */
  function SetCell(b: Board, r: int, c: int, x: Cell): Board
    requires InBounds(r, c)
  {
    b[r := b[r][c := x]]
  }

  /**
   * The successor board of a move from (fr, fc) to (tr, tc): the copied board
   * first gets the moving piece on the destination, then the source cleared.
   */
  function Apply(b: Board, fr: int, fc: int, tr: int, tc: int): Board
    requires InBounds(fr, fc) && InBounds(tr, tc)
  {
    SetCell(SetCell(b, tr, tc, b[fr][fc]), fr, fc, Empty)
  }

  /**
   * After a move the source square is empty, the destination holds the moving
   * piece, and every other cell is as it was.
   */
  lemma ApplyCells(b: Board, fr: int, fc: int, tr: int, tc: int)
    requires InBounds(fr, fc) && InBounds(tr, tc)
    ensures var nb := Apply(b, fr, fc, tr, tc);
      nb[fr][fc] == Empty &&
      ((tr, tc) != (fr, fc) ==> nb[tr][tc] == b[fr][fc]) &&
      forall i, j | InBounds(i, j) && (i, j) != (fr, fc) && (i, j) != (tr, tc) :: nb[i][j] == b[i][j]
  {
  }
}
