/**
 * Legal successors, as `ChessAI.filter_checks` and `ChessAI.get_succs` make
 * them (chessai.py:102-125, 329-343): every pseudo-legal move of the side to
 * move, in board-scan order, minus those that leave its own king in check,
 * with '+' appended to the notation of those that check the other king.
 */
module Legality {
  import opened Board
  import opened MoveGen
  import opened Check

  /** The pair `filter_checks` keeps for a move that does not expose its own king. */
  function Marked(p: (Board, string), white: bool): (Board, string)
  {
    (p.0, if InCheck(p.0, !white) then p.1 + "+" else p.1)
  }

  /** The successors that do not leave the mover's king in check, with check marks, in order. */
  function Filtered(succs: seq<(Board, string)>, white: bool): (r: seq<(Board, string)>)
    ensures |r| <= |succs|
  {
    if |succs| == 0 then []
    else
      var rest := Filtered(succs[..|succs| - 1], white);
      var p := succs[|succs| - 1];
      if InCheck(p.0, white) then rest else rest + [Marked(p, white)]
  }

  /** No successor that survives the filter leaves the mover's king in check. */
  lemma {:induction false} FilteredSafe(succs: seq<(Board, string)>, white: bool)
    ensures forall i | 0 <= i < |Filtered(succs, white)| :: !InCheck(Filtered(succs, white)[i].0, white)
  {
    if |succs| > 0 {
      FilteredSafe(succs[..|succs| - 1], white);
    }
  }

  /** Filtering a list is filtering its parts. */
  lemma {:induction false} FilteredAppend(xs: seq<(Board, string)>, ys: seq<(Board, string)>, white: bool)
    ensures Filtered(xs + ys, white) == Filtered(xs, white) + Filtered(ys, white)
    decreases |ys|
  {
    if |ys| == 0 {
      assert xs + ys == xs;
    } else {
      var init := ys[..|ys| - 1];
      assert (xs + ys)[..|xs + ys| - 1] == xs + init;
      assert (xs + ys)[|xs + ys| - 1] == ys[|ys| - 1];
      FilteredAppend(xs, init, white);
    }
  }

  /** One successor: dropped when it leaves the mover's king in check, otherwise kept and '+'-marked when it checks. */
  lemma FilteredOne(p: (Board, string), white: bool)
    ensures Filtered([p], white) == if InCheck(p.0, white) then [] else [Marked(p, white)]
  {
    assert [p][..0] == [];
  }

  /** `filter_checks` (chessai.py:329-343). */
  method FilterChecks(succs: seq<(Board, string)>, white: bool) returns (legalMoves: seq<(Board, string)>)
    ensures legalMoves == Filtered(succs, white)
  {
    legalMoves := [];
    for i := 0 to |succs|
      invariant legalMoves == Filtered(succs[..i], white)
    {
      var (board, move) := succs[i];
      assert succs[..i + 1][..i] == succs[..i];
      var ownCheck := IsInCheck(board, white);
      if ownCheck {
        continue;
      }
      var otherCheck := IsInCheck(board, !white);
      if otherCheck {
        move := move + "+";
      }
      legalMoves := legalMoves + [(board, move)];
    }
    assert succs[..|succs|] == succs;
  }

  // ---------------------------------------------------------------- successors

  /** The legal successors of a board for the side to move. */
  function Succs(b: Board, white: bool): seq<(Board, string)>
  {
    Filtered(PseudoMoves(b, white), white)
  }

  /** The generator `get_succs` calls for the piece on (i, j). */
  method PieceMoves(b: Board, i: int, j: int, white: bool) returns (moves: seq<(Board, string)>)
    requires InBounds(i, j)
    ensures moves == MovesOf(b, PieceTargets(b, i, j, white))
  {
    moves := [];
    var piece := b[i][j];
    if piece.Piece? && piece.color == ColorOf(white) {
      match piece.kind
      case Pawn => moves := GeneratePawnMoves(b, i, j, white);
      case Rook => moves := GenerateRookMoves(b, i, j, white);
      case Knight => moves := GenerateKnightMoves(b, i, j, white);
      case Bishop => moves := GenerateBishopMoves(b, i, j, white);
      case Queen => moves := GenerateQueenMoves(b, i, j, white);
      case King => moves := GenerateKingMoves(b, i, j, white);
    }
  }

  /** One row of the scan in `get_succs` (chessai.py:106-122): the moves of its squares, left to right. */
  method ScanRow(b: Board, white: bool, i: int) returns (moves: seq<(Board, string)>)
    requires 0 <= i < 8
    ensures moves == MovesOf(b, RowTargets(b, white, i, 8))
  {
    moves := [];
    for j := 0 to 8
      invariant moves == MovesOf(b, RowTargets(b, white, i, j))
    {
      var pieceMoves := PieceMoves(b, i, j, white);
      MovesOfAppend(b, RowTargets(b, white, i, j), PieceTargets(b, i, j, white));
      moves := moves + pieceMoves;
    }
  }

  /** `get_succs` (chessai.py:102-125): every square in row-major order, then the check filter. */
  method GetSuccs(b: Board, white: bool) returns (succs: seq<(Board, string)>)
    ensures succs == Succs(b, white)
  {
    succs := [];
    for i := 0 to 8
      invariant succs == MovesOf(b, BoardTargets(b, white, i))
    {
      var rowMoves := ScanRow(b, white, i);
      MovesOfAppend(b, BoardTargets(b, white, i), RowTargets(b, white, i, 8));
      succs := succs + rowMoves;
    }
    succs := FilterChecks(succs, white);
  }

  /** The move does not leave the mover's own king in check. */
  predicate Safe(b: Board, white: bool, m: Move)
  {
    !InCheck(MoveOf(b, m).0, white)
  }

  /** The moves of ms that are safe, in order. */
  function Legal(b: Board, white: bool, ms: seq<Move>): (r: seq<Move>)
  {
    if |ms| == 0 then []
    else
      var rest := Legal(b, white, ms[..|ms| - 1]);
      var m := ms[|ms| - 1];
      if Safe(b, white, m) then rest + [m] else rest
  }

  /** A move is legal exactly when it is one of the candidates and is safe. */
  lemma {:induction false} LegalExact(b: Board, white: bool, ms: seq<Move>, m: Move)
    ensures m in Legal(b, white, ms) <==> m in ms && Safe(b, white, m)
  {
    if |ms| > 0 {
      LegalExact(b, white, ms[..|ms| - 1], m);
      assert ms == ms[..|ms| - 1] + [ms[|ms| - 1]];
    }
  }

  /** The pairs of some moves, each with its check mark. */
  function MarkedMoves(b: Board, white: bool, ms: seq<Move>): (r: seq<(Board, string)>)
    ensures |r| == |ms|
  {
    if |ms| == 0 then [] else MarkedMoves(b, white, ms[..|ms| - 1]) + [Marked(MoveOf(b, ms[|ms| - 1]), white)]
  }

  /** The i-th marked pair is the i-th move's pair, marked. */
  lemma {:induction false} MarkedMovesAt(b: Board, white: bool, ms: seq<Move>, i: int)
    requires 0 <= i < |ms|
    ensures MarkedMoves(b, white, ms)[i] == Marked(MoveOf(b, ms[i]), white)
  {
    if i < |ms| - 1 {
      MarkedMovesAt(b, white, ms[..|ms| - 1], i);
    }
  }

  lemma MarkedMovesSnoc(b: Board, white: bool, ms: seq<Move>, m: Move)
    ensures MarkedMoves(b, white, ms + [m]) == MarkedMoves(b, white, ms) + [Marked(MoveOf(b, m), white)]
  {
    assert (ms + [m])[..|ms|] == ms;
  }

  /** Filtering the pairs of some moves keeps the pairs of the safe moves, marked. */
  lemma {:induction false} FilteredMoves(b: Board, white: bool, ms: seq<Move>)
    ensures Filtered(MovesOf(b, ms), white) == MarkedMoves(b, white, Legal(b, white, ms))
  {
    if |ms| > 0 {
      FilteredMoves(b, white, ms[..|ms| - 1]);
      FilteredMovesLast(b, white, ms);
    }
  }

  /** The step of FilteredMoves: the last move's pair is kept, marked, exactly when the move is safe. */
  lemma FilteredMovesLast(b: Board, white: bool, ms: seq<Move>)
    requires |ms| > 0
    requires Filtered(MovesOf(b, ms[..|ms| - 1]), white) == MarkedMoves(b, white, Legal(b, white, ms[..|ms| - 1]))
    ensures Filtered(MovesOf(b, ms), white) == MarkedMoves(b, white, Legal(b, white, ms))
  {
    var init, m := ms[..|ms| - 1], ms[|ms| - 1];
    FilteredAppend(MovesOf(b, init), [MoveOf(b, m)], white);
    FilteredOne(MoveOf(b, m), white);
    MarkedMovesSnoc(b, white, Legal(b, white, init), m);
  }

  /** The legal moves of the side to move, in board-scan order. */
  function LegalTargets(b: Board, white: bool): seq<Move>
  {
    Legal(b, white, PseudoTargets(b, white))
  }

  /**
   * The successors are the legal moves in board-scan order, each as its
   * successor board and its notation, with '+' when it checks the other king;
   * a move is legal exactly when it is a pseudo-legal move that does not leave
   * the mover's own king in check.
   */
  lemma SuccsExact(b: Board, white: bool)
    ensures Succs(b, white) == MarkedMoves(b, white, LegalTargets(b, white))
    ensures forall m :: m in LegalTargets(b, white) <==>
      m in PseudoTargets(b, white) && Safe(b, white, m)
  {
    FilteredMoves(b, white, PseudoTargets(b, white));
    forall m ensures m in LegalTargets(b, white) <==> m in PseudoTargets(b, white) && Safe(b, white, m) {
      LegalExact(b, white, PseudoTargets(b, white), m);
    }
  }
}
